/** The board loader: a board definition's ASCII text becomes BoardData, or a
    parse error naming the violated dimension or the missing spawn marker.

    The single row-major scan of the source keeps a dozen accumulators; each
    of them is specified here by a function over the scanned prefix of the
    grid (the cells before a mark (r, c) in row-major order), and each such
    function carries, as its contract, what the accumulator means. */
module BoardParser {
  import opened Types
  import opened Grid

  datatype BoardDefinition = BoardDefinition(name: string, description: string, ascii: string)

  datatype ParseError =
    | WrongRowCount(rows: nat)
    | WrongColCount(row: nat, cols: nat)
    | NoSpawn

  datatype ParseResult = Ok(board: BoardData) | Err(error: ParseError)

  predicate IsWarpDigit(ch: char)
  {
    '1' <= ch <= '9'
  }

  /** The symbol table. Read as a whole, the contract says which characters
      produce each tile kind: every kind but EMPTY has exactly the symbols
      listed, and EMPTY takes 'P', ' ' and every unknown character. */
  function CharToTile(ch: char): (t: Tile)
    ensures t == Wall <==> ch == '#'
    ensures t == Dot <==> ch == '.'
    ensures t == Power <==> ch == 'o'
    ensures t == Gate <==> ch == '-'
    ensures t == GhostHouse <==> ch == 'H'
    ensures t == Tunnel <==> ch == 'T'
    ensures t == SpeedPad <==> ch == 'S'
    ensures t == WarpTunnel <==> IsWarpDigit(ch)
    ensures t == Empty <==> ch !in "#.o-HTS" && !IsWarpDigit(ch)
  {
    match ch
    case '#' => Wall
    case '.' => Dot
    case 'o' => Power
    case ' ' => Empty
    case 'P' => Empty
    case 'H' => GhostHouse
    case '-' => Gate
    case 'T' => Tunnel
    case 'S' => SpeedPad
    case _ => if IsWarpDigit(ch) then WarpTunnel else Empty
  }

  // ---- splitting the text into lines ----------------------------------------------

  predicate NoNewline(s: string)
  {
    forall i :: 0 <= i < |s| ==> s[i] != '\n'
  }

  /** Length of the first line of s: the index of the first '\n', or |s|. */
  function LineEnd(s: string): (k: nat)
    ensures k <= |s| && NoNewline(s[..k]) && (k < |s| ==> s[k] == '\n')
  {
    if s == [] || s[0] == '\n' then 0 else 1 + LineEnd(s[1..])
  }

  /** `ascii.split('\n').filter(l => l.length > 0)`. */
  function Lines(s: string): (ls: seq<string>)
    ensures forall i :: 0 <= i < |ls| ==> |ls[i]| > 0 && NoNewline(ls[i])
    decreases |s|
  {
    var k := LineEnd(s);
    var first := if k > 0 then [s[..k]] else [];
    if k == |s| then first else first + Lines(s[k + 1..])
  }

  /** Lines joined by single newlines: the text an author writes for them. */
  function Join(ls: seq<string>): string
  {
    if |ls| == 0 then "" else if |ls| == 1 then ls[0] else ls[0] + "\n" + Join(ls[1..])
  }

  lemma {:induction false} LineEndOfJoin(a: string, b: string)
    requires NoNewline(a) && (b == [] || b[0] == '\n')
    ensures LineEnd(a + b) == |a|
  {
    if a != [] {
      assert (a + b)[1..] == a[1..] + b;
      LineEndOfJoin(a[1..], b);
    } else {
      assert a + b == b;
    }
  }

  /** Splitting undoes joining, for non-empty lines without newlines. */
  lemma {:induction false} LinesOfJoin(ls: seq<string>)
    requires forall i :: 0 <= i < |ls| ==> |ls[i]| > 0 && NoNewline(ls[i])
    ensures Lines(Join(ls)) == ls
  {
    if |ls| == 1 {
      LineEndOfJoin(ls[0], "");
      assert ls[0] + "" == ls[0];
      assert ls[0][..|ls[0]|] == ls[0];
    } else if |ls| > 1 {
      var s := Join(ls);
      var rest := Join(ls[1..]);
      assert s == ls[0] + ("\n" + rest);
      LineEndOfJoin(ls[0], "\n" + rest);
      assert s[..|ls[0]|] == ls[0];
      assert s[|ls[0]| + 1..] == rest;
      LinesOfJoin(ls[1..]);
    }
  }

  // ---- the scanned prefix of the grid ---------------------------------------------

  /** `lines[r][c]`, read as a blank outside the text. */
  function CharAt(lines: seq<string>, c: int, r: int): char
  {
    if 0 <= r < |lines| && 0 <= c < |lines[r]| then lines[r][c] else ' '
  }

  /** Cell (c, r) comes strictly before cell (mc, mr) in row-major order. */
  predicate Before(c: int, r: int, mc: int, mr: int)
  {
    r < mr || (r == mr && c < mc)
  }

  /** A scan mark: the scan has processed every window cell before (c, r). */
  predicate Mark(r: nat, c: nat)
  {
    (r < ROWS && c <= COLS) || (r == ROWS && c == 0)
  }

  /** Window cell (pc, pr) holds `ch` and has been scanned by mark (r, c). */
  predicate SeenAt(lines: seq<string>, ch: char, pc: int, pr: int, r: nat, c: nat)
  {
    InWindow(pc, pr) && Before(pc, pr, c, r) && CharAt(lines, pc, pr) == ch
  }

  /** Moving a mark from the start of row r back to the end of row r - 1 scans the same cells. */
  lemma SeenWrap(lines: seq<string>, ch: char, r: nat)
    requires 0 < r <= ROWS
    ensures forall pc, pr :: SeenAt(lines, ch, pc, pr, r, 0) <==> SeenAt(lines, ch, pc, pr, r - 1, COLS)
  {
  }

  /** Advancing a mark by one cell within a row scans exactly one more cell. */
  lemma SeenStep(lines: seq<string>, ch: char, r: nat, c: nat)
    requires r < ROWS && 0 < c <= COLS
    ensures forall pc, pr :: SeenAt(lines, ch, pc, pr, r, c) <==>
              SeenAt(lines, ch, pc, pr, r, c - 1) || (pc == c - 1 && pr == r && CharAt(lines, c - 1, r) == ch)
    ensures CharAt(lines, c - 1, r) == ch ==> SeenAt(lines, ch, c - 1, r, r, c)
  {
  }

  /** `pacmanSpawn` after scanning to mark (r, c). */
  function SpawnUpTo(lines: seq<string>, r: nat, c: nat): Option<TilePos>
    requires Mark(r, c)
    decreases r, c
  {
    if c == 0 then (if r == 0 then None else SpawnUpTo(lines, r - 1, COLS))
    else if CharAt(lines, c - 1, r) == 'P' then Some(TilePos(c - 1, r))
    else SpawnUpTo(lines, r, c - 1)
  }

  /** The recorded spawn is the LAST 'P' scanned so far: it holds a 'P', and
      every scanned 'P' is it or comes before it. */
  lemma {:induction false} SpawnUpToMeaning(lines: seq<string>, r: nat, c: nat)
    requires Mark(r, c)
    ensures var s := SpawnUpTo(lines, r, c);
      (s.Some? ==> SeenAt(lines, 'P', s.value.col, s.value.row, r, c)) &&
      (forall pc, pr :: SeenAt(lines, 'P', pc, pr, r, c) ==>
         s.Some? && (TilePos(pc, pr) == s.value || Before(pc, pr, s.value.col, s.value.row)))
    decreases r, c
  {
    if c == 0 {
      if r > 0 {
        SpawnUpToMeaning(lines, r - 1, COLS);
        SeenWrap(lines, 'P', r);
      }
    } else {
      SeenStep(lines, 'P', r, c);
      if CharAt(lines, c - 1, r) != 'P' {
        SpawnUpToMeaning(lines, r, c - 1);
      }
    }
  }

  /** A flag set once `ch` has been seen (`hasSpeedPads`, `hasGhostHouse`). */
  function SeenUpTo(lines: seq<string>, ch: char, r: nat, c: nat): bool
    requires Mark(r, c)
    decreases r, c
  {
    if c == 0 then (if r == 0 then false else SeenUpTo(lines, ch, r - 1, COLS))
    else CharAt(lines, c - 1, r) == ch || SeenUpTo(lines, ch, r, c - 1)
  }

  /** A cell scanned by one mark is scanned by every later mark. */
  lemma SeenLater(lines: seq<string>, ch: char, pc: int, pr: int, r: nat, c: nat, r2: nat, c2: nat)
    requires SeenAt(lines, ch, pc, pr, r, c) && (r < r2 || (r == r2 && c <= c2))
    ensures SeenAt(lines, ch, pc, pr, r2, c2)
  {
  }

  /** The flag is set exactly when some scanned cell holds `ch`. */
  lemma {:induction false} SeenUpToMeaning(lines: seq<string>, ch: char, r: nat, c: nat)
    requires Mark(r, c)
    ensures SeenUpTo(lines, ch, r, c) <==> exists pc, pr :: SeenAt(lines, ch, pc, pr, r, c)
    decreases r, c
  {
    if c == 0 {
      if r > 0 {
        SeenUpToMeaning(lines, ch, r - 1, COLS);
        SeenWrap(lines, ch, r);
        if SeenUpTo(lines, ch, r, c) {
          var pc, pr :| SeenAt(lines, ch, pc, pr, r - 1, COLS);
          assert SeenAt(lines, ch, pc, pr, r, c);
        }
      }
    } else {
      SeenUpToMeaning(lines, ch, r, c - 1);
      SeenStep(lines, ch, r, c);
      if CharAt(lines, c - 1, r) == ch {
        assert SeenAt(lines, ch, c - 1, r, r, c);
      } else if SeenUpTo(lines, ch, r, c - 1) {
        var pc, pr :| SeenAt(lines, ch, pc, pr, r, c - 1);
        SeenLater(lines, ch, pc, pr, r, c - 1, r, c);
      }
    }
  }

  /** Ghost-house bounding box accumulators (ghMinCol, ghMaxCol, ghMinRow, ghMaxRow). */
  datatype Box = Box(minCol: int, maxCol: int, minRow: int, maxRow: int)

  const NO_BOX: Box := Box(COLS, 0, ROWS, 0)

  /** The running min/max over the 'H' cells seen so far. */
  function HouseBoxUpTo(lines: seq<string>, r: nat, c: nat): Box
    requires Mark(r, c)
    decreases r, c
  {
    if c == 0 then (if r == 0 then NO_BOX else HouseBoxUpTo(lines, r - 1, COLS))
    else
      var b := HouseBoxUpTo(lines, r, c - 1);
      if CharAt(lines, c - 1, r) == 'H' then WidenBox(b, c - 1, r) else b
  }

  /** The box grown, side by side, to take in cell (c, r). */
  function WidenBox(b: Box, c: int, r: int): Box
  {
    Box(if c < b.minCol then c else b.minCol,
        if c > b.maxCol then c else b.maxCol,
        if r < b.minRow then r else b.minRow,
        if r > b.maxRow then r else b.maxRow)
  }

  /** Every scanned 'H' cell lies inside the box, and without any the box is
      the initial one. */
  lemma {:induction false} HouseBoxBounds(lines: seq<string>, r: nat, c: nat)
    requires Mark(r, c)
    ensures var b := HouseBoxUpTo(lines, r, c);
      (forall pc, pr :: SeenAt(lines, 'H', pc, pr, r, c) ==>
         b.minCol <= pc <= b.maxCol && b.minRow <= pr <= b.maxRow) &&
      (!SeenUpTo(lines, 'H', r, c) ==> b == NO_BOX)
    decreases r, c
  {
    if c == 0 {
      if r > 0 {
        HouseBoxBounds(lines, r - 1, COLS);
        SeenWrap(lines, 'H', r);
      }
    } else {
      HouseBoxBounds(lines, r, c - 1);
      SeenStep(lines, 'H', r, c);
    }
  }

  /** Some scanned 'H' cell lies in column x. */
  ghost predicate HouseCol(lines: seq<string>, x: int, r: nat, c: nat)
  {
    exists pr :: SeenAt(lines, 'H', x, pr, r, c)
  }

  /** Some scanned 'H' cell lies in row y. */
  ghost predicate HouseRow(lines: seq<string>, y: int, r: nat, c: nat)
  {
    exists pc :: SeenAt(lines, 'H', pc, y, r, c)
  }

  /** Each side of the box touches an 'H' cell: with the bounds, the box is the
      tight bounding box of the ghost house. */
  lemma {:induction false} HouseBoxAttained(lines: seq<string>, r: nat, c: nat)
    requires Mark(r, c) && SeenUpTo(lines, 'H', r, c)
    ensures var b := HouseBoxUpTo(lines, r, c);
      HouseCol(lines, b.minCol, r, c) && HouseCol(lines, b.maxCol, r, c) &&
      HouseRow(lines, b.minRow, r, c) && HouseRow(lines, b.maxRow, r, c)
    decreases r, c
  {
    var b := HouseBoxUpTo(lines, r, c);
    if c == 0 {
      HouseBoxAttained(lines, r - 1, COLS);
      SeenWrap(lines, 'H', r);
      var p1 :| SeenAt(lines, 'H', b.minCol, p1, r - 1, COLS);
      var p2 :| SeenAt(lines, 'H', b.maxCol, p2, r - 1, COLS);
      var q1 :| SeenAt(lines, 'H', q1, b.minRow, r - 1, COLS);
      var q2 :| SeenAt(lines, 'H', q2, b.maxRow, r - 1, COLS);
      assert SeenAt(lines, 'H', b.minCol, p1, r, c) && SeenAt(lines, 'H', b.maxCol, p2, r, c);
      assert SeenAt(lines, 'H', q1, b.minRow, r, c) && SeenAt(lines, 'H', q2, b.maxRow, r, c);
    } else {
      SeenStep(lines, 'H', r, c);
      HouseBoxBounds(lines, r, c - 1);
      var old_ := HouseBoxUpTo(lines, r, c - 1);
      if SeenUpTo(lines, 'H', r, c - 1) {
        HouseBoxAttained(lines, r, c - 1);
        var p1 :| SeenAt(lines, 'H', old_.minCol, p1, r, c - 1);
        var p2 :| SeenAt(lines, 'H', old_.maxCol, p2, r, c - 1);
        var q1 :| SeenAt(lines, 'H', q1, old_.minRow, r, c - 1);
        var q2 :| SeenAt(lines, 'H', q2, old_.maxRow, r, c - 1);
        SeenLater(lines, 'H', old_.minCol, p1, r, c - 1, r, c);
        SeenLater(lines, 'H', old_.maxCol, p2, r, c - 1, r, c);
        SeenLater(lines, 'H', q1, old_.minRow, r, c - 1, r, c);
        SeenLater(lines, 'H', q2, old_.maxRow, r, c - 1, r, c);
      }
      if CharAt(lines, c - 1, r) == 'H' {
        assert SeenAt(lines, 'H', c - 1, r, r, c);
      }
    }
  }

  /** `gateRow`: the row of the last gate seen so far, -1 when there is none. */
  function GateRowUpTo(lines: seq<string>, r: nat, c: nat): (g: int)
    requires Mark(r, c)
    ensures -1 <= g < ROWS
    decreases r, c
  {
    if c == 0 then (if r == 0 then -1 else GateRowUpTo(lines, r - 1, COLS))
    else if CharAt(lines, c - 1, r) == '-' then r else GateRowUpTo(lines, r, c - 1)
  }

  /** The gate row is -1 exactly when no gate was scanned, holds a scanned
      gate otherwise, and no scanned gate lies below it. */
  lemma {:induction false} GateRowMeaning(lines: seq<string>, r: nat, c: nat)
    requires Mark(r, c)
    ensures var g := GateRowUpTo(lines, r, c);
      (g == -1 <==> !SeenUpTo(lines, '-', r, c)) &&
      (g != -1 ==> exists pc :: SeenAt(lines, '-', pc, g, r, c)) &&
      (forall pc, pr :: SeenAt(lines, '-', pc, pr, r, c) ==> pr <= g)
    decreases r, c
  {
    var g := GateRowUpTo(lines, r, c);
    if c == 0 {
      if r > 0 {
        GateRowMeaning(lines, r - 1, COLS);
        SeenWrap(lines, '-', r);
        if g != -1 {
          var pc :| SeenAt(lines, '-', pc, g, r - 1, COLS);
          SeenLater(lines, '-', pc, g, r - 1, COLS, r, c);
        }
      }
    } else {
      SeenStep(lines, '-', r, c);
      GateRowMeaning(lines, r, c - 1);
      if CharAt(lines, c - 1, r) == '-' {
        assert SeenAt(lines, '-', c - 1, r, r, c);
      } else if g != -1 {
        var pc :| SeenAt(lines, '-', pc, g, r, c - 1);
        SeenLater(lines, '-', pc, g, r, c - 1, r, c);
      }
    }
  }

  /** The keys of the `warpEndpoints` map, in the map's insertion order. */
  function WarpIdsUpTo(lines: seq<string>, r: nat, c: nat): seq<char>
    requires Mark(r, c)
    decreases r, c
  {
    if c == 0 then (if r == 0 then [] else WarpIdsUpTo(lines, r - 1, COLS))
    else
      var ids := WarpIdsUpTo(lines, r, c - 1);
      var ch := CharAt(lines, c - 1, r);
      if IsWarpDigit(ch) && ch !in ids then ids + [ch] else ids
  }

  /** The keys are the warp digits seen so far, each once. */
  lemma {:induction false} WarpIdsMeaning(lines: seq<string>, r: nat, c: nat)
    requires Mark(r, c)
    ensures var ids := WarpIdsUpTo(lines, r, c);
      (forall d :: d in ids <==> IsWarpDigit(d) && SeenUpTo(lines, d, r, c)) &&
      (forall i, j :: 0 <= i < j < |ids| ==> ids[i] != ids[j])
    decreases r, c
  {
    if c == 0 {
      if r > 0 {
        WarpIdsMeaning(lines, r - 1, COLS);
      }
    } else {
      WarpIdsMeaning(lines, r, c - 1);
    }
  }

  /** `warpEndpoints.get(d)`, with [] for a digit not seen yet. */
  function EndsUpTo(lines: seq<string>, d: char, r: nat, c: nat): seq<TilePos>
    requires Mark(r, c)
    decreases r, c
  {
    if c == 0 then (if r == 0 then [] else EndsUpTo(lines, d, r - 1, COLS))
    else
      var e := EndsUpTo(lines, d, r, c - 1);
      if CharAt(lines, c - 1, r) == d then e + [TilePos(c - 1, r)] else e
  }

  /** `e` lists exactly the cells holding `d` scanned by mark (r, c), in
      strictly increasing row-major order. */
  ghost predicate ListsSeen(lines: seq<string>, d: char, r: nat, c: nat, e: seq<TilePos>)
  {
    (forall i :: 0 <= i < |e| ==> SeenAt(lines, d, e[i].col, e[i].row, r, c)) &&
    (forall i, j :: 0 <= i < j < |e| ==> Before(e[i].col, e[i].row, e[j].col, e[j].row)) &&
    (forall pc, pr :: SeenAt(lines, d, pc, pr, r, c) ==> TilePos(pc, pr) in e)
  }

  /** The endpoints of `d` are the scanned cells holding `d`, in order. */
  lemma {:induction false} EndsMeaning(lines: seq<string>, d: char, r: nat, c: nat)
    requires Mark(r, c)
    ensures ListsSeen(lines, d, r, c, EndsUpTo(lines, d, r, c))
    decreases r, c
  {
    if c == 0 {
      if r > 0 {
        EndsMeaning(lines, d, r - 1, COLS);
        SeenWrap(lines, d, r);
      }
    } else {
      EndsMeaning(lines, d, r, c - 1);
      SeenStep(lines, d, r, c);
      var e := EndsUpTo(lines, d, r, c - 1);
      if CharAt(lines, c - 1, r) == d {
        var e' := e + [TilePos(c - 1, r)];
        forall i | 0 <= i < |e'|
          ensures SeenAt(lines, d, e'[i].col, e'[i].row, r, c)
        {
          if i < |e| {
            SeenLater(lines, d, e[i].col, e[i].row, r, c - 1, r, c);
          }
        }
      }
    }
  }

  /** A digit not seen yet has no endpoints yet. */
  lemma UnseenHasNoEnds(lines: seq<string>, d: char, r: nat, c: nat)
    requires Mark(r, c) && !SeenUpTo(lines, d, r, c)
    ensures EndsUpTo(lines, d, r, c) == []
  {
    SeenUpToMeaning(lines, d, r, c);
    EndsMeaning(lines, d, r, c);
  }

  /** The pairs built from the warp map, visiting the digits `ids` in order. */
  function PairsFor(lines: seq<string>, ids: seq<char>): seq<WarpPair>
  {
    if ids == [] then []
    else
      var d := ids[|ids| - 1];
      var e := EndsUpTo(lines, d, ROWS, 0);
      PairsFor(lines, ids[..|ids| - 1]) + (if |e| == 2 then [WarpPair(d, e[0], e[1])] else [])
  }

  // ---- tiles and the gate centre -------------------------------------------------------

  function RowTiles(line: string): seq<Tile>
  {
    seq(|line|, c requires 0 <= c < |line| => CharToTile(line[c]))
  }

  function TilesOf(lines: seq<string>): seq<seq<Tile>>
  {
    seq(|lines|, r requires 0 <= r < |lines| => RowTiles(lines[r]))
  }

  /** Sum of the columns c in [0, n) of row r that `s` selects. */
  function SumCols(tiles: seq<seq<Tile>>, s: Cells, r: int, n: nat): int
  {
    if n == 0 then 0 else SumCols(tiles, s, r, n - 1) + (if Hit(tiles, s, n - 1, r) then n - 1 else 0)
  }

  /** `Math.round(s / n)` for a positive n. */
  function RoundDiv(s: int, n: int): int
    requires n > 0
  {
    (2 * s + n) / (2 * n)
  }

  /** RoundDiv rounds half up: the result q is the integer with
      q - 1/2 <= s/n < q + 1/2, which is what Math.round returns. */
  lemma RoundDivMeaning(s: int, n: int)
    requires n > 0
    ensures var q := RoundDiv(s, n); 2 * n * q - n <= 2 * s < 2 * n * q + n
  {
    var q := RoundDiv(s, n);
    assert 2 * s + n == (2 * n) * q + (2 * s + n) % (2 * n);
  }

  function BoxCentreCol(b: Box): int
  {
    RoundDiv(b.minCol + b.maxCol, 2)
  }

  function BoxCentreRow(b: Box): int
  {
    RoundDiv(b.minRow + b.maxRow, 2)
  }

  /** The four ghost spawns, derived from the house box and the entrance. */
  function GhostSpawnsFor(b: Box, entrance: TilePos): seq<GhostSpawnConfig>
  {
    var cc := BoxCentreCol(b);
    var cr := BoxCentreRow(b);
    [ GhostSpawnConfig(Blinky, entrance.col, entrance.row, Left, 0.0, Left),
      GhostSpawnConfig(Pinky, cc, cr, Down, 1500.0, Right),
      GhostSpawnConfig(Inky, RoundDiv(b.minCol + cc, 2), cr, Up, 4000.0, Left),
      GhostSpawnConfig(Clyde, RoundDiv(cc + b.maxCol, 2), cr, Up, 6500.0, Right) ]
  }

  const SCATTER_TARGETS: seq<TilePos> := [TilePos(COLS - 3, 0), TilePos(2, 0), TilePos(COLS - 1, ROWS - 2), TilePos(0, ROWS - 2)]

  /** A gate row recorded by the scan holds at least one GATE tile. */
  lemma GateRowHasGate(lines: seq<string>)
    requires Shaped(lines) && GateRowUpTo(lines, ROWS, 0) >= 0
    ensures CountRow(TilesOf(lines), OfKind(Gate), GateRowUpTo(lines, ROWS, 0), COLS) > 0
  {
    var g := GateRowUpTo(lines, ROWS, 0);
    GateRowMeaning(lines, ROWS, 0);
    var pc :| SeenAt(lines, '-', pc, g, ROWS, 0);
    assert Hit(TilesOf(lines), OfKind(Gate), pc, g);
    CountRowZero(TilesOf(lines), OfKind(Gate), g, COLS);
  }

  /** The tile just above the centre of the gate row, or the fallback (14, 11)
      when the board has no gate. */
  function EntranceOf(lines: seq<string>): TilePos
    requires Shaped(lines)
  {
    var tiles := TilesOf(lines);
    var g := GateRowUpTo(lines, ROWS, 0);
    if g >= 0 then
      GateRowHasGate(lines);
      TilePos(RoundDiv(SumCols(tiles, OfKind(Gate), g, COLS), CountRow(tiles, OfKind(Gate), g, COLS)), g - 1)
    else TilePos(14, 11)
  }

  /** Four spawns when the board has a ghost house and a gate, none otherwise. */
  function GhostSpawnsOf(lines: seq<string>): seq<GhostSpawnConfig>
    requires Shaped(lines)
  {
    if SeenUpTo(lines, 'H', ROWS, 0) && GateRowUpTo(lines, ROWS, 0) >= 0
    then GhostSpawnsFor(HouseBoxUpTo(lines, ROWS, 0), EntranceOf(lines))
    else []
  }

  /** Two rows below the centre of the house box, or (14, 17) without a house. */
  function FruitSpawnOf(lines: seq<string>): TilePos
  {
    var b := HouseBoxUpTo(lines, ROWS, 0);
    if SeenUpTo(lines, 'H', ROWS, 0) then TilePos(BoxCentreCol(b), b.maxRow + 2) else TilePos(14, 17)
  }

  /** Everything but the error checks: the board the scan of `lines` produces. */
  function BuildBoard(lines: seq<string>, spawn: TilePos): BoardData
    requires Shaped(lines)
  {
    BoardData(
      TilesOf(lines),
      spawn,
      EntranceOf(lines),
      GhostSpawnsOf(lines),
      FruitSpawnOf(lines),
      SCATTER_TARGETS,
      PairsFor(lines, WarpIdsUpTo(lines, ROWS, 0)),
      SeenUpTo(lines, 'S', ROWS, 0),
      Count(TilesOf(lines), Dots))
  }

  /** A window cell of the parsed grid is a dot exactly when its symbol is. */
  lemma DotAtTiles(lines: seq<string>, c: int, r: int)
    requires 0 <= r < |lines| && 0 <= c < |lines[r]|
    ensures Hit(TilesOf(lines), Dots, c, r) == IsDotTile(CharToTile(lines[r][c]))
  {
  }

  /** The first row among [0, n) whose length is not COLS. */
  function FirstBadRow(lines: seq<string>, n: nat): (b: Option<nat>)
    requires n <= |lines|
    ensures b.Some? ==> b.value < n && |lines[b.value]| != COLS && forall i :: 0 <= i < b.value ==> |lines[i]| == COLS
    ensures b.None? ==> forall i :: 0 <= i < n ==> |lines[i]| == COLS
  {
    if n == 0 then None
    else
      var b := FirstBadRow(lines, n - 1);
      if b.Some? then b else if |lines[n - 1]| != COLS then Some(n - 1) else None
  }

  /** Once a bad row is found, scanning further rows keeps reporting it. */
  lemma {:induction false} FirstBadRowKept(lines: seq<string>, m: nat, n: nat)
    requires m <= n <= |lines| && FirstBadRow(lines, m).Some?
    ensures FirstBadRow(lines, n) == FirstBadRow(lines, m)
    decreases n - m
  {
    if m < n {
      FirstBadRowKept(lines, m, n - 1);
    }
  }

  /** What `parseBoard` returns or throws for a definition. */
  function Parse(def: BoardDefinition): ParseResult
  {
    var lines := Lines(def.ascii);
    if |lines| != ROWS then Err(WrongRowCount(|lines|))
    else
      match FirstBadRow(lines, ROWS)
      case Some(r) => Err(WrongColCount(r, |lines[r]|))
      case None =>
        match SpawnUpTo(lines, ROWS, 0)
        case None => Err(NoSpawn)
        case Some(p) => Ok(BuildBoard(lines, p))
  }

  // ---- the scan, as the source runs it ------------------------------------------------

  /** The accumulators the row-major scan keeps. `warpIds` records the
      insertion order of the keys of `warpEnds`, as a JavaScript Map keeps it. */
  datatype Scan = Scan(
    spawn: Option<TilePos>,
    warpIds: seq<char>,
    warpEnds: map<char, seq<TilePos>>,
    hasSpeedPads: bool,
    dotCount: int,
    hasHouse: bool,
    house: Box,
    gateRow: int)

  const START: Scan := Scan(None, [], map[], false, 0, false, NO_BOX, -1)

  /** The accumulators hold what the scan up to mark (r, c) has seen. */
  ghost predicate ScannedTo(lines: seq<string>, st: Scan, r: nat, c: nat)
    requires Mark(r, c)
  {
    && st.spawn == SpawnUpTo(lines, r, c)
    && WarpScanned(lines, st.warpIds, st.warpEnds, r, c)
    && st.hasSpeedPads == SeenUpTo(lines, 'S', r, c)
    && DotsScanned(lines, st, r, c)
    && st.hasHouse == SeenUpTo(lines, 'H', r, c)
    && st.house == HouseBoxUpTo(lines, r, c)
    && st.gateRow == GateRowUpTo(lines, r, c)
  }

  ghost predicate WarpScanned(lines: seq<string>, ids: seq<char>, ends: map<char, seq<TilePos>>, r: nat, c: nat)
    requires Mark(r, c)
  {
    && ids == WarpIdsUpTo(lines, r, c)
    && (forall d :: d in ends <==> d in ids)
    && (forall d :: d in ends ==> IsWarpDigit(d) && ends[d] == EndsUpTo(lines, d, r, c))
  }

  ghost predicate DotsScanned(lines: seq<string>, st: Scan, r: nat, c: nat)
    requires Mark(r, c)
  {
    st.dotCount == CountRows(TilesOf(lines), Dots, r) + (if r < ROWS then CountRow(TilesOf(lines), Dots, r, c) else 0)
  }

  /** The body of the column loop: one cell of row r, symbol `ch` at column c. */
  method ScanCell(ghost lines: seq<string>, st: Scan, ch: char, c: nat, r: nat) returns (next: Scan, tile: Tile)
    requires r < ROWS && c < COLS && r < |lines| && |lines[r]| == COLS && lines[r][c] == ch
    requires ScannedTo(lines, st, r, c)
    ensures ScannedTo(lines, next, r, c + 1)
    ensures tile == CharToTile(ch)
  {
    assert ch == CharAt(lines, c, r);
    tile := CharToTile(ch);

    var ids, ends := st.warpIds, st.warpEnds;
    if IsWarpDigit(ch) {
      ids, ends := RecordWarp(lines, ids, ends, ch, c, r);
    } else {
      EndsStep(lines, r, c);
    }

    DotAtTiles(lines, c, r);
    var house := if ch == 'H' then WidenBox(st.house, c, r) else st.house;

    next := Scan(
      if ch == 'P' then Some(TilePos(c, r)) else st.spawn,
      ids,
      ends,
      st.hasSpeedPads || ch == 'S',
      if IsDotTile(tile) then st.dotCount + 1 else st.dotCount,
      st.hasHouse || ch == 'H',
      house,
      if ch == '-' then r else st.gateRow);
  }

  /** Scanning a cell appends it to the endpoints of its own symbol only. */
  lemma EndsStep(lines: seq<string>, r: nat, c: nat)
    requires r < ROWS && c < COLS
    ensures forall d :: EndsUpTo(lines, d, r, c + 1) ==
              (if CharAt(lines, c, r) == d then EndsUpTo(lines, d, r, c) + [TilePos(c, r)] else EndsUpTo(lines, d, r, c))
  {
  }

  /** The warp block of the loop body: append the cell to its digit's endpoints. */
  method RecordWarp(ghost lines: seq<string>, ids: seq<char>, ends: map<char, seq<TilePos>>, ch: char, c: nat, r: nat)
    returns (ids': seq<char>, ends': map<char, seq<TilePos>>)
    requires r < ROWS && c < COLS && CharAt(lines, c, r) == ch && IsWarpDigit(ch)
    requires WarpScanned(lines, ids, ends, r, c)
    ensures WarpScanned(lines, ids', ends', r, c + 1)
  {
    EndsStep(lines, r, c);
    var endpoints := if ch in ends then ends[ch] else [];
    endpoints := endpoints + [TilePos(c, r)];
    ids' := ids;
    if ch !in ends {
      WarpIdsMeaning(lines, r, c);
      UnseenHasNoEnds(lines, ch, r, c);
      ids' := ids + [ch];
    }
    ends' := ends[ch := endpoints];
  }

  /** The column loop over row r. */
  method ScanRow(ghost lines: seq<string>, st: Scan, line: string, r: nat) returns (next: Scan, row: seq<Tile>)
    requires r < ROWS && r < |lines| && lines[r] == line && |line| == COLS
    requires ScannedTo(lines, st, r, 0)
    ensures ScannedTo(lines, next, r + 1, 0)
    ensures row == RowTiles(line)
  {
    next := st;
    row := [];
    var c := 0;
    while c < COLS
      invariant 0 <= c <= COLS
      invariant row == RowTiles(line)[..c]
      invariant ScannedTo(lines, next, r, c)
    {
      var tile;
      next, tile := ScanCell(lines, next, line[c], c, r);
      row := row + [tile];
      c := c + 1;
    }
    ScannedWrap(lines, next, r);
    assert row == RowTiles(line);
  }

  /** The accumulators at the end of row r are those at the start of row r + 1. */
  lemma ScannedWrap(lines: seq<string>, st: Scan, r: nat)
    requires r < ROWS && ScannedTo(lines, st, r, COLS)
    ensures ScannedTo(lines, st, r + 1, 0)
  {
  }

  /** The row loop of the scan. It stops at the first row of the wrong width;
      otherwise it hands back the tile grid and the accumulators of the whole window. */
  method ScanRows(lines: seq<string>) returns (bad: Option<nat>, tiles: seq<seq<Tile>>, st: Scan)
    requires |lines| == ROWS
    ensures bad == FirstBadRow(lines, ROWS)
    ensures bad.None? ==> tiles == TilesOf(lines) && ScannedTo(lines, st, ROWS, 0)
  {
    tiles := [];
    st := START;
    var r := 0;
    while r < ROWS
      invariant 0 <= r <= ROWS
      invariant FirstBadRow(lines, r) == None
      invariant |tiles| == r && forall i :: 0 <= i < r ==> tiles[i] == RowTiles(lines[i])
      invariant ScannedTo(lines, st, r, 0)
    {
      var line := lines[r];
      if |line| != COLS {
        assert FirstBadRow(lines, r + 1) == Some(r);
        FirstBadRowKept(lines, r + 1, ROWS);
        return Some(r), tiles, st;
      }
      var row;
      st, row := ScanRow(lines, st, line, r);
      tiles := tiles + [row];
      r := r + 1;
    }
    bad := None;
  }

  method ParseBoard(def: BoardDefinition) returns (res: ParseResult)
    ensures res == Parse(def)
  {
    var lines := Lines(def.ascii);
    if |lines| != ROWS {
      return Err(WrongRowCount(|lines|));
    }
    var bad, tiles, st := ScanRows(lines);
    if bad.Some? {
      return Err(WrongColCount(bad.value, |lines[bad.value]|));
    }
    if st.spawn.None? {
      return Err(NoSpawn);
    }
    var board := AssembleBoard(lines, tiles, st);
    return Ok(board);
  }

  /** The part of the parse after the scan: derive the entrance, the ghost and
      fruit spawns and the warp pairs from the accumulators. */
  method AssembleBoard(ghost lines: seq<string>, tiles: seq<seq<Tile>>, st: Scan) returns (board: BoardData)
    requires Shaped(lines) && tiles == TilesOf(lines) && ScannedTo(lines, st, ROWS, 0) && st.spawn.Some?
    ensures board == BuildBoard(lines, st.spawn.value)
  {
    var gateCenterCol := -1;
    if st.gateRow >= 0 {
      GateRowHasGate(lines);
      gateCenterCol := GateCentreCol(tiles, st.gateRow);
    }
    var entrance := if st.gateRow >= 0 then TilePos(gateCenterCol, st.gateRow - 1) else TilePos(14, 11);
    assert entrance == EntranceOf(lines);

    var ghostSpawns: seq<GhostSpawnConfig> := [];
    if st.hasHouse && st.gateRow >= 0 {
      ghostSpawns := GhostSpawnsFor(st.house, entrance);
    }

    var fruitSpawn := if st.hasHouse then TilePos(BoxCentreCol(st.house), st.house.maxRow + 2) else TilePos(14, 17);

    var warpPairs := CollectPairs(lines, st.warpIds, st.warpEnds);

    board := BoardData(tiles, st.spawn.value, entrance, ghostSpawns, fruitSpawn, SCATTER_TARGETS,
                       warpPairs, st.hasSpeedPads, st.dotCount);
    ghost var built := BuildBoard(lines, st.spawn.value);
    assert board.tiles == built.tiles;
    assert board.pacmanSpawn == built.pacmanSpawn;
    assert board.ghostHouseEntrance == built.ghostHouseEntrance;
    assert board.ghostSpawns == built.ghostSpawns;
    assert board.fruitSpawn == built.fruitSpawn;
    assert board.scatterTargets == built.scatterTargets;
    assert board.warpPairs == built.warpPairs;
    assert board.hasSpeedPads == built.hasSpeedPads;
    assert board.dotCount == built.dotCount;
  }

  /** The gate-centre loop: the rounded mean column of the GATE tiles of row g. */
  method GateCentreCol(tiles: seq<seq<Tile>>, g: int) returns (col: int)
    requires 0 <= g < |tiles| && |tiles[g]| == COLS && CountRow(tiles, OfKind(Gate), g, COLS) > 0
    ensures col == RoundDiv(SumCols(tiles, OfKind(Gate), g, COLS), CountRow(tiles, OfKind(Gate), g, COLS))
  {
    var gateSum := 0;
    var gateCount := 0;
    var c := 0;
    while c < COLS
      invariant 0 <= c <= COLS
      invariant gateSum == SumCols(tiles, OfKind(Gate), g, c)
      invariant gateCount == CountRow(tiles, OfKind(Gate), g, c)
    {
      if tiles[g][c] == Gate {
        gateSum := gateSum + c;
        gateCount := gateCount + 1;
      }
      c := c + 1;
    }
    col := RoundDiv(gateSum, gateCount);
  }

  /** The warp-pair loop: over the map's keys in insertion order, keep the
      digits with exactly two endpoints. */
  method CollectPairs(ghost lines: seq<string>, warpIds: seq<char>, warpEnds: map<char, seq<TilePos>>)
    returns (warpPairs: seq<WarpPair>)
    requires forall d :: d in warpIds ==> d in warpEnds && warpEnds[d] == EndsUpTo(lines, d, ROWS, 0)
    ensures warpPairs == PairsFor(lines, warpIds)
  {
    warpPairs := [];
    var k := 0;
    while k < |warpIds|
      invariant 0 <= k <= |warpIds|
      invariant warpPairs == PairsFor(lines, warpIds[..k])
    {
      var id := warpIds[k];
      var endpoints := warpEnds[id];
      if |endpoints| == 2 {
        warpPairs := warpPairs + [WarpPair(id, endpoints[0], endpoints[1])];
      }
      assert warpIds[..k + 1][..k] == warpIds[..k];
      k := k + 1;
    }
    assert warpIds[..k] == warpIds;
  }
}

// What a parsed board is, stated on the definition's text rather than on the scan.
module BoardParserFacts {
  import opened Types
  import opened Grid
  import opened BoardParser

  /** Window cell (c, r) holds symbol `ch`. */
  predicate HasSymbol(lines: seq<string>, ch: char, c: int, r: int)
  {
    InWindow(c, r) && CharAt(lines, c, r) == ch
  }

  /** Some window cell holds symbol `ch`. */
  ghost predicate Present(lines: seq<string>, ch: char)
  {
    exists c, r :: HasSymbol(lines, ch, c, r)
  }

  /** Some window cell of row r holds symbol `ch`. */
  ghost predicate RowHasSymbol(lines: seq<string>, ch: char, r: int)
  {
    exists c :: HasSymbol(lines, ch, c, r)
  }

  lemma SeenAtEnd(lines: seq<string>, ch: char)
    ensures forall c, r :: SeenAt(lines, ch, c, r, ROWS, 0) <==> HasSymbol(lines, ch, c, r)
  {
  }

  lemma SeenIsPresent(lines: seq<string>, ch: char)
    ensures SeenUpTo(lines, ch, ROWS, 0) <==> Present(lines, ch)
  {
    SeenUpToMeaning(lines, ch, ROWS, 0);
    SeenAtEnd(lines, ch);
  }

  // ---- the rules a parsed board follows --------------------------------------------

  /** The grid is 31 x 28, each tile is its symbol's tile, and the dot count
      is the number of DOT and POWER tiles. */
  ghost predicate GridRule(lines: seq<string>, tiles: seq<seq<Tile>>, dotCount: int)
  {
    && Shaped(tiles)
    && (forall c, r :: InWindow(c, r) ==> tiles[r][c] == CharToTile(CharAt(lines, c, r)))
    && dotCount == Count(tiles, Dots)
  }

  /** The spawn is the LAST 'P' in row-major order, on an EMPTY tile. */
  ghost predicate LastSpawnRule(lines: seq<string>, tiles: seq<seq<Tile>>, p: TilePos)
  {
    && HasSymbol(lines, 'P', p.col, p.row)
    && TileAt(tiles, p.col, p.row) == Some(Empty)
    && (forall c, r :: HasSymbol(lines, 'P', c, r) ==> TilePos(c, r) == p || Before(c, r, p.col, p.row))
  }

  predicate RowMajorSorted(e: seq<TilePos>)
  {
    forall i, j :: 0 <= i < j < |e| ==> Before(e[i].col, e[i].row, e[j].col, e[j].row)
  }

  /** `e` lists, in row-major order, exactly the window cells holding `d`. */
  ghost predicate AllCellsOf(lines: seq<string>, d: char, e: seq<TilePos>)
  {
    RowMajorSorted(e) && forall x :: x in e <==> HasSymbol(lines, d, x.col, x.row)
  }

  predicate DistinctIds(ps: seq<WarpPair>)
  {
    forall i, j :: 0 <= i < j < |ps| ==> ps[i].id != ps[j].id
  }

  /** One pair per digit occurring exactly twice, `a` the earlier occurrence. */
  ghost predicate WarpRule(lines: seq<string>, ps: seq<WarpPair>)
  {
    && (forall w :: w in ps <==> IsWarpDigit(w.id) && AllCellsOf(lines, w.id, [w.a, w.b]))
    && DistinctIds(ps)
  }

  /** With a gate, the entrance is the tile above the rounded mean column of
      the GATE tiles of the last row holding a gate; without, (14, 11). */
  ghost predicate EntranceRule(lines: seq<string>, tiles: seq<seq<Tile>>, e: TilePos)
  {
    && (Present(lines, '-') ==>
          && RowHasSymbol(lines, '-', e.row + 1)
          && (forall c, r :: HasSymbol(lines, '-', c, r) ==> r <= e.row + 1)
          && CountRow(tiles, OfKind(Gate), e.row + 1, COLS) > 0
          && e.col == RoundDiv(SumCols(tiles, OfKind(Gate), e.row + 1, COLS), CountRow(tiles, OfKind(Gate), e.row + 1, COLS)))
    && (!Present(lines, '-') ==> e == TilePos(14, 11))
  }

  /** The box spans the 'H' cells exactly: all lie inside and each side touches one. */
  ghost predicate IsHouseBox(lines: seq<string>, b: Box)
  {
    && (forall c, r :: HasSymbol(lines, 'H', c, r) ==> b.minCol <= c <= b.maxCol && b.minRow <= r <= b.maxRow)
    && (exists r :: HasSymbol(lines, 'H', b.minCol, r))
    && (exists r :: HasSymbol(lines, 'H', b.maxCol, r))
    && (exists c :: HasSymbol(lines, 'H', c, b.minRow))
    && (exists c :: HasSymbol(lines, 'H', c, b.maxRow))
  }

  /** Four spawns, Blinky to Clyde with release delays 0, 1500, 4000 and 6500 ms,
      exactly when the board has a ghost house and a gate; Blinky starts on the
      entrance and Pinky at the centre of the house box. */
  ghost predicate GhostSpawnRule(lines: seq<string>, gs: seq<GhostSpawnConfig>, entrance: TilePos)
  {
    && (Present(lines, 'H') && Present(lines, '-') ==>
          && |gs| == 4
          && gs[0].name == Blinky && gs[1].name == Pinky && gs[2].name == Inky && gs[3].name == Clyde
          && gs[0].releaseDelay == 0.0 && gs[1].releaseDelay == 1500.0
          && gs[2].releaseDelay == 4000.0 && gs[3].releaseDelay == 6500.0
          && TilePos(gs[0].startCol, gs[0].startRow) == entrance
          && exists b :: (IsHouseBox(lines, b) &&
               gs[1].startCol == RoundDiv(b.minCol + b.maxCol, 2) && gs[1].startRow == RoundDiv(b.minRow + b.maxRow, 2)))
    && (!(Present(lines, 'H') && Present(lines, '-')) ==> gs == [])
  }

  /** The fruit sits two rows below the house, centred on it, or at (14, 17)
      without a house. */
  ghost predicate FruitRule(lines: seq<string>, fruit: TilePos)
  {
    && (Present(lines, 'H') ==> exists b :: (IsHouseBox(lines, b) &&
          fruit == TilePos(RoundDiv(b.minCol + b.maxCol, 2), b.maxRow + 2)))
    && (!Present(lines, 'H') ==> fruit == TilePos(14, 17))
  }

  // ---- each part of the scan follows its rule ------------------------------------

  lemma GridOf(lines: seq<string>)
    requires Shaped(lines)
    ensures GridRule(lines, TilesOf(lines), Count(TilesOf(lines), Dots))
  {
  }

  lemma SpawnOf(lines: seq<string>)
    requires Shaped(lines) && SpawnUpTo(lines, ROWS, 0).Some?
    ensures LastSpawnRule(lines, TilesOf(lines), SpawnUpTo(lines, ROWS, 0).value)
  {
    SpawnUpToMeaning(lines, ROWS, 0);
    SeenAtEnd(lines, 'P');
  }

  /** Two row-major sorted lists of the same cells are the same list. */
  lemma {:induction false} SortedUnique(e1: seq<TilePos>, e2: seq<TilePos>)
    requires RowMajorSorted(e1) && RowMajorSorted(e2)
    requires forall x :: x in e1 <==> x in e2
    ensures e1 == e2
  {
    if e1 != [] {
      assert e1[0] in e2;
      var j :| 0 <= j < |e2| && e2[j] == e1[0];
      assert e2[0] in e1;
      var i :| 0 <= i < |e1| && e1[i] == e2[0];
      forall x
        ensures x in e1[1..] <==> x in e2[1..]
      {
        if x in e1[1..] {
          var k :| 1 <= k < |e1| && e1[k] == x;
          assert x in e1;
          var m :| 0 <= m < |e2| && e2[m] == x;
          assert m != 0;
          assert e2[1..][m - 1] == x;
        }
        if x in e2[1..] {
          var k :| 1 <= k < |e2| && e2[k] == x;
          assert x in e2;
          var m :| 0 <= m < |e1| && e1[m] == x;
          assert m != 0;
          assert e1[1..][m - 1] == x;
        }
      }
      SortedUnique(e1[1..], e2[1..]);
      assert e1 == [e1[0]] + e1[1..];
      assert e2 == [e2[0]] + e2[1..];
    } else {
      HeadIsMember(e2);
    }
  }

  lemma EndsAreAllCells(lines: seq<string>, d: char)
    ensures AllCellsOf(lines, d, EndsUpTo(lines, d, ROWS, 0))
  {
    EndsMeaning(lines, d, ROWS, 0);
    SeenAtEnd(lines, d);
    var e := EndsUpTo(lines, d, ROWS, 0);
    forall x | x in e
      ensures HasSymbol(lines, d, x.col, x.row)
    {
      var i :| 0 <= i < |e| && e[i] == x;
    }
  }

  lemma {:induction false} PairsForMeaning(lines: seq<string>, ids: seq<char>)
    requires forall i, j :: 0 <= i < j < |ids| ==> ids[i] != ids[j]
    ensures forall w :: w in PairsFor(lines, ids) <==> w.id in ids && EndsUpTo(lines, w.id, ROWS, 0) == [w.a, w.b]
    ensures DistinctIds(PairsFor(lines, ids))
  {
    if ids != [] {
      var init := ids[..|ids| - 1];
      var d := ids[|ids| - 1];
      PairsForMeaning(lines, init);
      assert forall x :: x in ids <==> x in init || x == d;
      assert d !in init;
      var ps0 := PairsFor(lines, init);
      var ps := PairsFor(lines, ids);
      forall i | 0 <= i < |ps0|
        ensures ps0[i].id != d
      {
        assert ps0[i] in ps0;
      }
      var e := EndsUpTo(lines, d, ROWS, 0);
      if |e| == 2 {
        assert ps == ps0 + [WarpPair(d, e[0], e[1])];
        forall i, j | 0 <= i < j < |ps|
          ensures ps[i].id != ps[j].id
        {
          assert ps[i] == ps0[i];
          if j < |ps0| {
            assert ps[j] == ps0[j];
          }
        }
      } else {
        assert ps == ps0;
      }
    }
  }

  lemma WarpPairsOf(lines: seq<string>)
    ensures WarpRule(lines, PairsFor(lines, WarpIdsUpTo(lines, ROWS, 0)))
  {
    var ids := WarpIdsUpTo(lines, ROWS, 0);
    WarpIdsMeaning(lines, ROWS, 0);
    PairsForMeaning(lines, ids);
    var ps := PairsFor(lines, ids);
    forall w
      ensures w in ps <==> IsWarpDigit(w.id) && AllCellsOf(lines, w.id, [w.a, w.b])
    {
      EndsAreAllCells(lines, w.id);
      var e := EndsUpTo(lines, w.id, ROWS, 0);
      if IsWarpDigit(w.id) && AllCellsOf(lines, w.id, [w.a, w.b]) {
        SortedUnique(e, [w.a, w.b]);
        SeenUpToMeaning(lines, w.id, ROWS, 0);
        assert SeenAt(lines, w.id, w.a.col, w.a.row, ROWS, 0);
      }
      if w in ps {
        assert e == [w.a, w.b];
      }
    }
  }

  lemma EntranceOfMeaning(lines: seq<string>)
    requires Shaped(lines)
    ensures EntranceRule(lines, TilesOf(lines), EntranceOf(lines))
  {
    GateRowMeaning(lines, ROWS, 0);
    SeenIsPresent(lines, '-');
    SeenAtEnd(lines, '-');
    var g := GateRowUpTo(lines, ROWS, 0);
    if g >= 0 {
      GateRowHasGate(lines);
      var pc :| SeenAt(lines, '-', pc, g, ROWS, 0);
      assert HasSymbol(lines, '-', pc, g);
    }
  }

  /** The bounding box the scan keeps is the tight box of the 'H' cells. */
  lemma HouseBoxIsTight(lines: seq<string>)
    requires Present(lines, 'H')
    ensures IsHouseBox(lines, HouseBoxUpTo(lines, ROWS, 0))
  {
    SeenIsPresent(lines, 'H');
    SeenAtEnd(lines, 'H');
    var b := HouseBoxUpTo(lines, ROWS, 0);
    HouseBoxBounds(lines, ROWS, 0);
    HouseBoxAttained(lines, ROWS, 0);
    var r1 :| SeenAt(lines, 'H', b.minCol, r1, ROWS, 0);
    var r2 :| SeenAt(lines, 'H', b.maxCol, r2, ROWS, 0);
    var c1 :| SeenAt(lines, 'H', c1, b.minRow, ROWS, 0);
    var c2 :| SeenAt(lines, 'H', c2, b.maxRow, ROWS, 0);
    assert HasSymbol(lines, 'H', b.minCol, r1) && HasSymbol(lines, 'H', b.maxCol, r2);
    assert HasSymbol(lines, 'H', c1, b.minRow) && HasSymbol(lines, 'H', c2, b.maxRow);
  }

  lemma GhostSpawnsOfMeaning(lines: seq<string>)
    requires Shaped(lines)
    ensures GhostSpawnRule(lines, GhostSpawnsOf(lines), EntranceOf(lines))
  {
    SeenIsPresent(lines, 'H');
    SeenIsPresent(lines, '-');
    GateRowMeaning(lines, ROWS, 0);
    if Present(lines, 'H') && Present(lines, '-') {
      HouseBoxIsTight(lines);
      var b := HouseBoxUpTo(lines, ROWS, 0);
      var gs := GhostSpawnsOf(lines);
      assert IsHouseBox(lines, b) &&
        gs[1].startCol == RoundDiv(b.minCol + b.maxCol, 2) && gs[1].startRow == RoundDiv(b.minRow + b.maxRow, 2);
    }
  }

  lemma FruitSpawnOfMeaning(lines: seq<string>)
    ensures FruitRule(lines, FruitSpawnOf(lines))
  {
    SeenIsPresent(lines, 'H');
    if Present(lines, 'H') {
      HouseBoxIsTight(lines);
      var b := HouseBoxUpTo(lines, ROWS, 0);
      assert IsHouseBox(lines, b) && FruitSpawnOf(lines) == TilePos(RoundDiv(b.minCol + b.maxCol, 2), b.maxRow + 2);
    }
  }

  // ---- the parse as a whole -------------------------------------------------------------

  /** The parse fails exactly on a wrong line count, on a row of the wrong
      width (the first such row is reported), or on a missing 'P'. */
  lemma ParseOutcome(def: BoardDefinition)
    ensures |Lines(def.ascii)| != ROWS ==> Parse(def) == Err(WrongRowCount(|Lines(def.ascii)|))
    ensures forall r :: |Lines(def.ascii)| == ROWS && 0 <= r < ROWS && |Lines(def.ascii)[r]| != COLS &&
                        (forall i :: 0 <= i < r ==> |Lines(def.ascii)[i]| == COLS) ==>
                          Parse(def) == Err(WrongColCount(r, |Lines(def.ascii)[r]|))
    ensures Shaped(Lines(def.ascii)) && !Present(Lines(def.ascii), 'P') ==> Parse(def) == Err(NoSpawn)
    ensures Parse(def).Ok? <==> Shaped(Lines(def.ascii)) && Present(Lines(def.ascii), 'P')
  {
    var lines := Lines(def.ascii);
    if |lines| == ROWS {
      var bad := FirstBadRow(lines, ROWS);
      forall r | 0 <= r < ROWS && |lines[r]| != COLS && (forall i :: 0 <= i < r ==> |lines[i]| == COLS)
        ensures Parse(def) == Err(WrongColCount(r, |lines[r]|))
      {
        assert bad.Some?;
        assert bad.value == r;
      }
      if bad.None? {
        SpawnUpToMeaning(lines, ROWS, 0);
        SeenAtEnd(lines, 'P');
        var s := SpawnUpTo(lines, ROWS, 0);
        if s.Some? {
          assert HasSymbol(lines, 'P', s.value.col, s.value.row);
        }
      }
    }
  }

  /** A successful parse is the board built from the scan. */
  lemma ParsedIsBuilt(def: BoardDefinition)
    requires Parse(def).Ok?
    ensures Shaped(Lines(def.ascii)) && SpawnUpTo(Lines(def.ascii), ROWS, 0).Some?
    ensures Parse(def).board == BuildBoard(Lines(def.ascii), SpawnUpTo(Lines(def.ascii), ROWS, 0).value)
  {
  }

  /** The rules of the grid, the spawn, the warp pairs and the speed-pad flag. */
  ghost predicate LayoutRules(lines: seq<string>, b: BoardData)
  {
    && GridRule(lines, b.tiles, b.dotCount)
    && LastSpawnRule(lines, b.tiles, b.pacmanSpawn)
    && WarpRule(lines, b.warpPairs)
    && (b.hasSpeedPads <==> Present(lines, 'S'))
  }

  /** The rules of the entrance, the ghost and fruit spawns and the scatter corners. */
  ghost predicate HouseRules(lines: seq<string>, b: BoardData)
  {
    && EntranceRule(lines, b.tiles, b.ghostHouseEntrance)
    && GhostSpawnRule(lines, b.ghostSpawns, b.ghostHouseEntrance)
    && FruitRule(lines, b.fruitSpawn)
    && b.scatterTargets == [TilePos(25, 0), TilePos(2, 0), TilePos(27, 29), TilePos(0, 29)]
  }

  lemma BuiltLayoutRules(lines: seq<string>, p: TilePos)
    requires Shaped(lines) && SpawnUpTo(lines, ROWS, 0) == Some(p)
    ensures LayoutRules(lines, BuildBoard(lines, p))
  {
    var b := BuildBoard(lines, p);
    assert b.tiles == TilesOf(lines) && b.dotCount == Count(TilesOf(lines), Dots);
    GridOf(lines);
    SpawnOf(lines);
    WarpPairsOf(lines);
    assert b.warpPairs == PairsFor(lines, WarpIdsUpTo(lines, ROWS, 0));
    SeenIsPresent(lines, 'S');
  }

  lemma BuiltHouseRules(lines: seq<string>, p: TilePos)
    requires Shaped(lines)
    ensures HouseRules(lines, BuildBoard(lines, p))
  {
    BuiltEntrance(lines, p);
    BuiltGhostSpawns(lines, p);
    BuiltFruit(lines, p);
  }

  lemma BuiltEntrance(lines: seq<string>, p: TilePos)
    requires Shaped(lines)
    ensures EntranceRule(lines, BuildBoard(lines, p).tiles, BuildBoard(lines, p).ghostHouseEntrance)
  {
    EntranceOfMeaning(lines);
  }

  lemma BuiltGhostSpawns(lines: seq<string>, p: TilePos)
    requires Shaped(lines)
    ensures GhostSpawnRule(lines, BuildBoard(lines, p).ghostSpawns, BuildBoard(lines, p).ghostHouseEntrance)
  {
    GhostSpawnsOfMeaning(lines);
  }

  lemma BuiltFruit(lines: seq<string>, p: TilePos)
    requires Shaped(lines)
    ensures FruitRule(lines, BuildBoard(lines, p).fruitSpawn)
  {
    FruitSpawnOfMeaning(lines);
  }

  /** Every field of a parsed board follows its rule: the grid, the last 'P'
      as spawn, the warp pairs, the entrance, the ghost and fruit spawns,
      the fixed scatter corners and the speed-pad flag. */
  lemma ParsedBoard(def: BoardDefinition)
    requires Parse(def).Ok?
    ensures LayoutRules(Lines(def.ascii), Parse(def).board)
    ensures HouseRules(Lines(def.ascii), Parse(def).board)
  {
    ParsedIsBuilt(def);
    BuiltLayoutRules(Lines(def.ascii), Parse(def).board.pacmanSpawn);
    BuiltHouseRules(Lines(def.ascii), Parse(def).board.pacmanSpawn);
  }

  /** Splitting a text written as lines joined by newlines gives those lines back. */
  lemma ParseSeesAuthoredLines(rows: seq<string>, name: string, description: string)
    requires forall i :: 0 <= i < |rows| ==> |rows[i]| > 0 && NoNewline(rows[i])
    ensures Lines(BoardDefinition(name, description, Join(rows)).ascii) == rows
  {
    LinesOfJoin(rows);
  }
}
