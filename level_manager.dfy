/** The level list: every board definition is parsed and validated once, a slot
    keeps the board only when both succeed, and levels cycle through the slots,
    falling back to the first usable board. */
module LevelManagement {
  import opened Types
  import opened BoardParser
  import opened BoardValidator

  /** What loading one definition leaves in its slot: the parsed board when it
      parses and validates, nothing when the parse fails or the board is invalid. */
  ghost function Slot(def: BoardDefinition): Option<BoardData>
  {
    match Parse(def)
    case Err(_) => None
    case Ok(b) => if Report(b, ReachSet(b.tiles, b.pacmanSpawn)).valid then Some(b) else None
  }

  ghost function Slots(defs: seq<BoardDefinition>): (slots: seq<Option<BoardData>>)
    ensures |slots| == |defs|
    ensures forall i :: 0 <= i < |defs| ==> slots[i] == Slot(defs[i])
  {
    if defs == [] then [] else Slots(defs[..|defs| - 1]) + [Slot(defs[|defs| - 1])]
  }

  /** JavaScript's `a % n` on integers for n > 0: the remainder takes the sign of a
      (a negative zero is the property key "0", so it reads slot 0 like a zero). */
  function TruncRem(a: int, n: int): (r: int)
    requires n > 0
    ensures a >= 0 ==> 0 <= r < n
    ensures a < 0 ==> -n < r <= 0
  {
    if a >= 0 then a % n else -((-a) % n)
  }

  /** The first usable slot, scanning from the start. */
  function FirstValid(boards: seq<Option<BoardData>>): Option<BoardData>
  {
    if boards == [] then None
    else if boards[0].Some? then boards[0]
    else FirstValid(boards[1..])
  }

  /** The fallback is None only when no slot is usable, and otherwise the board in
      the earliest usable slot. */
  lemma {:induction false} FirstValidMeaning(boards: seq<Option<BoardData>>)
    ensures FirstValid(boards).None? <==> forall i :: 0 <= i < |boards| ==> boards[i].None?
    ensures FirstValid(boards).Some? ==>
      exists i :: 0 <= i < |boards| && boards[i] == FirstValid(boards) && forall j :: 0 <= j < i ==> boards[j].None?
  {
    if boards != [] && boards[0].None? {
      var rest := boards[1..];
      FirstValidMeaning(rest);
      if FirstValid(rest).Some? {
        var i :| 0 <= i < |rest| && rest[i] == FirstValid(rest) && forall j :: 0 <= j < i ==> rest[j].None?;
        assert boards[i + 1] == FirstValid(boards);
        assert forall j :: 0 <= j < i + 1 ==> boards[j].None?;
      } else {
        assert forall i :: 1 <= i < |boards| ==> boards[i] == rest[i - 1];
      }
    }
  }

  /** `getBoardForLevel`: the slot (level - 1) % n when it holds a board, otherwise
      the first usable board; None where the source throws because no slot is usable. */
  function BoardForLevel(boards: seq<Option<BoardData>>, level: int): (b: Option<BoardData>)
  {
    var index := if |boards| == 0 then -1 else TruncRem(level - 1, |boards|);
    if 0 <= index < |boards| && boards[index].Some? then boards[index]
    else FirstValid(boards)
  }

  /** From level 1 on, a level reads its own slot when that slot holds a board and
      falls back to the first usable board otherwise; it fails only when no slot
      is usable. */
  lemma BoardForLevelMeaning(boards: seq<Option<BoardData>>, level: int)
    requires level >= 1 && |boards| > 0
    ensures var i := (level - 1) % |boards|;
      BoardForLevel(boards, level) == if boards[i].Some? then boards[i] else FirstValid(boards)
    ensures BoardForLevel(boards, level).None? <==> forall i :: 0 <= i < |boards| ==> boards[i].None?
  {
    FirstValidMeaning(boards);
  }

  /** A level at or below zero (or an empty list) always gets the first usable board:
      its slot index is negative, or zero, where the first usable board is slot 0 if
      slot 0 holds one. */
  lemma {:induction false} NonPositiveLevel(boards: seq<Option<BoardData>>, level: int)
    requires level <= 0 || |boards| == 0
    ensures BoardForLevel(boards, level) == FirstValid(boards)
  {
    if |boards| > 0 {
      var index := TruncRem(level - 1, |boards|);
      if 0 <= index < |boards| && boards[index].Some? {
        assert index == 0;
      }
    }
  }

  /** The remainder of Euclidean division is the one r in [0, n) with x == q * n + r. */
  lemma ModUnique(x: int, n: int, q: int, r: int)
    requires n > 0 && 0 <= r < n && x == q * n + r
    ensures x % n == r
  {
    var d := q - x / n;
    assert d * n == x % n - r;
  }

  lemma ModAddPeriod(a: int, n: int)
    requires n > 0
    ensures (a + n) % n == a % n
  {
    assert a + n == (a / n + 1) * n + a % n;
    ModUnique(a + n, n, a / n + 1, a % n);
  }

  /** Levels repeat with the number of slots. */
  lemma {:induction false} LevelsCycle(boards: seq<Option<BoardData>>, level: int)
    requires level >= 1
    ensures BoardForLevel(boards, level + |boards|) == BoardForLevel(boards, level)
  {
    if |boards| > 0 {
      ModAddPeriod(level - 1, |boards|);
    }
  }

  /** A board handed out for any level is the content of some slot. */
  lemma ServedFromSomeSlot(boards: seq<Option<BoardData>>, level: int)
    ensures BoardForLevel(boards, level).Some? ==>
      exists i :: 0 <= i < |boards| && boards[i] == BoardForLevel(boards, level)
  {
    FirstValidMeaning(boards);
  }

  /** A slot holds a board only when the board parses from the definition and
      passes validation. */
  lemma SlotMeaning(def: BoardDefinition)
    ensures Slot(def).Some? <==> Parse(def).Ok? && Report(Parse(def).board, ReachSet(Parse(def).board.tiles, Parse(def).board.pacmanSpawn)).valid
    ensures Slot(def).Some? ==> Parse(def) == Ok(Slot(def).value)
  {
  }

  /** Every parsed board carries the four scatter corners. */
  lemma ParseCorners(def: BoardDefinition)
    ensures Parse(def).Ok? ==> Parse(def).board.scatterTargets == SCATTER_TARGETS
  {
  }

  /** Every board a slot holds has a scatter corner for each of the four ghosts. */
  predicate HasCorners(boards: seq<Option<BoardData>>)
  {
    forall i :: 0 <= i < |boards| && boards[i].Some? ==> |boards[i].value.scatterTargets| == 4
  }

  lemma {:induction false} SlotsHaveCorners(defs: seq<BoardDefinition>)
    ensures HasCorners(Slots(defs))
  {
    forall i | 0 <= i < |defs| && Slot(defs[i]).Some?
      ensures |Slot(defs[i]).value.scatterTargets| == 4
    {
      ParseCorners(defs[i]);
    }
  }

  /** One step of the constructor's loop: parse, then validate, keeping the board
      only when both succeed. */
  method LoadSlot(def: BoardDefinition) returns (slot: Option<BoardData>)
    ensures slot == Slot(def)
  {
    var res := ParseBoard(def);
    if res.Ok? {
      var result := ValidateBoard(res.board);
      slot := if result.valid then Some(res.board) else None;
    } else {
      slot := None;
    }
  }

  class LevelManager {
    var boards: seq<Option<BoardData>>

    /** One slot per definition, in order, holding the board exactly when it parses
        and validates. */
    constructor(defs: seq<BoardDefinition>)
      ensures boards == Slots(defs) && HasCorners(boards)
    {
      SlotsHaveCorners(defs);
      boards := [];
      new;
      for i := 0 to |defs|
        invariant boards == Slots(defs[..i])
      {
        var slot := LoadSlot(defs[i]);
        assert defs[..i + 1][..i] == defs[..i];
        boards := boards + [slot];
      }
      assert defs[..|defs|] == defs;
    }

    /** `getBoardForLevel`: the level's own slot when it holds a board, otherwise
        the first usable slot, scanned in order; None where the source throws,
        which happens exactly when no slot holds a board. */
    method GetBoardForLevel(level: int) returns (b: Option<BoardData>)
      ensures b == BoardForLevel(boards, level)
      ensures b.None? <==> forall i :: 0 <= i < |boards| ==> boards[i].None?
      ensures b.Some? ==> exists i :: 0 <= i < |boards| && boards[i] == b
    {
      FirstValidMeaning(boards);
      ServedFromSomeSlot(boards, level);
      if |boards| > 0 {
        var index := TruncRem(level - 1, |boards|);
        if 0 <= index && boards[index].Some? {
          return boards[index];
        }
      }
      var i := 0;
      while i < |boards|
        invariant 0 <= i <= |boards|
        invariant FirstValid(boards[i..]) == FirstValid(boards)
      {
        if boards[i].Some? {
          return boards[i];
        }
        assert boards[i..][1..] == boards[i + 1..];
        i := i + 1;
      }
      return None;
    }

    /** `boardCount`: the number of definitions, rejected ones included. */
    function BoardCount(): nat
      reads this
    {
      |boards|
    }
  }
}
