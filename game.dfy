/** The coordinator's slice of the game: the high-score table, the scoring of dots,
    pellets, fruit and ghosts, the collision outcomes, the freeze after a ghost is
    eaten, the extra life, and the Game object that drives the entities through a
    frame of play, a death and the name entry. */
module Engine {
  import opened Types
  import opened Grid
  import opened TileMaps
  import opened PacManEntity
  import opened GhostEntity
  import opened Input
  import opened BoardParser
  import opened LevelManagement

  // ---- the high-score table ---------------------------------------------------------------

  predicate SortedDesc(t: seq<HighScoreEntry>)
  {
    forall i, j :: 0 <= i < j < |t| ==> t[i].score >= t[j].score
  }

  /** `isTopScore`: a positive score that beats the best entry, or any positive
      score while the table is empty. */
  function IsTopScore(t: seq<HighScoreEntry>, score: int): bool
  {
    if score <= 0 then false
    else if |t| == 0 then true
    else score > t[0].score
  }

  /** `isHighScore`: a positive score while the table has room, or one that beats
      the last entry of a full table. */
  function IsHighScore(t: seq<HighScoreEntry>, score: int): bool
  {
    if score <= 0 then false
    else if |t| < HIGH_SCORE_MAX then true
    else score > t[|t| - 1].score
  }

  /** The number of leading entries scoring at least `score`: where a stable
      descending sort places a new entry with that score. */
  function Rank(t: seq<HighScoreEntry>, score: int): (k: nat)
    ensures k <= |t|
    ensures forall i :: 0 <= i < k ==> t[i].score >= score
    ensures k < |t| ==> t[k].score < score
  {
    if |t| == 0 || t[0].score < score then 0 else 1 + Rank(t[1..], score)
  }

  /** One insertion step of a stable descending sort: `e` goes after every leading
      entry that scores at least as much. */
  function InsertDesc(t: seq<HighScoreEntry>, e: HighScoreEntry): seq<HighScoreEntry>
  {
    var k := Rank(t, e.score);
    t[..k] + [e] + t[k..]
  }

  lemma InsertKeepsSorted(t: seq<HighScoreEntry>, e: HighScoreEntry)
    requires SortedDesc(t)
    ensures SortedDesc(InsertDesc(t, e))
  {
    var k := Rank(t, e.score);
    var r := InsertDesc(t, e);
    forall i, j | 0 <= i < j < |r|
      ensures r[i].score >= r[j].score
    {
      InsertedAt(t, e, i);
      InsertedAt(t, e, j);
    }
  }

  /** Entry `i` of the table after the insertion: from the old table before the
      rank, `e` at it, and the old table shifted by one after it. */
  lemma InsertedAt(t: seq<HighScoreEntry>, e: HighScoreEntry, i: int)
    requires 0 <= i <= |t|
    ensures var k := Rank(t, e.score); var r := InsertDesc(t, e);
      && |r| == |t| + 1
      && (i < k ==> r[i] == t[i])
      && (i == k ==> r[i] == e)
      && (i > k ==> r[i] == t[i - 1])
  {
  }

  lemma InsertKeepsEntries(t: seq<HighScoreEntry>, e: HighScoreEntry)
    ensures |InsertDesc(t, e)| == |t| + 1
    ensures multiset(InsertDesc(t, e)) == multiset(t) + multiset{e}
  {
    var k := Rank(t, e.score);
    assert t == t[..k] + t[k..];
  }

  lemma InsertPlaces(t: seq<HighScoreEntry>, e: HighScoreEntry)
    ensures |InsertDesc(t, e)| == |t| + 1
    ensures InsertDesc(t, e)[Rank(t, e.score)] == e
    ensures InsertDesc(t, e)[..Rank(t, e.score)] == t[..Rank(t, e.score)]
  {
  }

  /** `sort((a, b) => b.score - a.score)`: JavaScript's sort is stable, so this is
      insertion of each entry in turn. */
  function SortDesc(s: seq<HighScoreEntry>): (r: seq<HighScoreEntry>)
    ensures |r| == |s| && multiset(r) == multiset(s)
    ensures SortedDesc(r)
  {
    if |s| == 0 then []
    else
      var front := SortDesc(s[..|s| - 1]);
      InsertKeepsSorted(front, s[|s| - 1]);
      InsertKeepsEntries(front, s[|s| - 1]);
      LastSplit(s);
      InsertDesc(front, s[|s| - 1])
  }

  lemma LastSplit(s: seq<HighScoreEntry>)
    requires |s| > 0
    ensures multiset(s) == multiset(s[..|s| - 1]) + multiset{s[|s| - 1]}
  {
    assert s == s[..|s| - 1] + [s[|s| - 1]];
  }

  /** Sorting a table that is already in order changes nothing. */
  lemma {:induction false} SortDescOfSorted(s: seq<HighScoreEntry>)
    requires SortedDesc(s)
    ensures SortDesc(s) == s
  {
    if |s| > 0 {
      var front := s[..|s| - 1];
      var e := s[|s| - 1];
      assert front + [e] == s;
      SortedFront(front, e);
      SortDescOfSorted(front);
      InsertLowest(front, e);
    }
  }

  lemma SortedFront(front: seq<HighScoreEntry>, e: HighScoreEntry)
    requires SortedDesc(front + [e])
    ensures SortedDesc(front)
    ensures forall i :: 0 <= i < |front| ==> front[i].score >= e.score
  {
    assert forall i :: 0 <= i < |front| ==> (front + [e])[i] == front[i];
    assert (front + [e])[|front|] == e;
  }

  /** An entry scoring no more than any in the table goes last. */
  lemma InsertLowest(t: seq<HighScoreEntry>, e: HighScoreEntry)
    requires forall i :: 0 <= i < |t| ==> t[i].score >= e.score
    ensures InsertDesc(t, e) == t + [e]
  {
    RankOfLowest(t, e.score);
    assert t[..|t|] == t;
  }

  lemma {:induction false} RankOfLowest(t: seq<HighScoreEntry>, score: int)
    requires forall i :: 0 <= i < |t| ==> t[i].score >= score
    ensures Rank(t, score) == |t|
  {
    if |t| > 0 {
      RankOfLowest(t[1..], score);
    }
  }

  /** `highScores.length = HIGH_SCORE_MAX` when the table is longer. */
  function Truncate(t: seq<HighScoreEntry>): seq<HighScoreEntry>
  {
    if |t| > HIGH_SCORE_MAX then t[..HIGH_SCORE_MAX] else t
  }

  /** The table after `updateEnterName` pushes an entry, sorts and truncates: in
      order and at most five long, whatever the table was before. */
  function Submit(t: seq<HighScoreEntry>, e: HighScoreEntry): (r: seq<HighScoreEntry>)
    ensures SortedDesc(r) && |r| <= HIGH_SCORE_MAX
  {
    Truncate(SortDesc(t + [e]))
  }

  /** `isTopScore` holds exactly when a positive score would go first. */
  lemma TopScoreMeaning(t: seq<HighScoreEntry>, score: int)
    requires score > 0
    ensures IsTopScore(t, score) <==> Rank(t, score) == 0
  {
  }

  /** On an ordered table of at most five, `isHighScore` holds exactly when the new
      entry would land inside the first five. */
  lemma {:induction false} HighScoreMeaning(t: seq<HighScoreEntry>, score: int)
    requires SortedDesc(t) && |t| <= HIGH_SCORE_MAX && score > 0
    ensures IsHighScore(t, score) <==> Rank(t, score) < HIGH_SCORE_MAX
  {
    if |t| == HIGH_SCORE_MAX && score <= t[|t| - 1].score {
      RankOfLowest(t, score);
    }
  }

  /** On an ordered table the sort after the push is a single insertion. */
  lemma SubmitIsInsert(t: seq<HighScoreEntry>, e: HighScoreEntry)
    requires SortedDesc(t)
    ensures Submit(t, e) == Truncate(InsertDesc(t, e))
  {
    SortDescOfSorted(t);
    assert (t + [e])[..|t|] == t;
  }

  /** Submitting to an ordered table of at most five a score that `isHighScore`
      accepts keeps it, at its rank (first for a top score), behind the entries
      scoring at least as much. */
  lemma SubmitAccepted(t: seq<HighScoreEntry>, e: HighScoreEntry)
    requires SortedDesc(t) && |t| <= HIGH_SCORE_MAX && IsHighScore(t, e.score)
    ensures Rank(t, e.score) < |Submit(t, e)|
    ensures Submit(t, e)[Rank(t, e.score)] == e
    ensures Submit(t, e)[..Rank(t, e.score)] == t[..Rank(t, e.score)]
    ensures IsTopScore(t, e.score) ==> Submit(t, e)[0] == e
  {
    var k := Rank(t, e.score);
    SubmitIsInsert(t, e);
    HighScoreMeaning(t, e.score);
    InsertPlaces(t, e);
    TruncateKeepsPrefix(InsertDesc(t, e), k);
    if IsTopScore(t, e.score) {
      TopScoreMeaning(t, e.score);
    }
  }

  /** Cutting to the first five keeps every entry before the fifth. */
  lemma TruncateKeepsPrefix(s: seq<HighScoreEntry>, k: int)
    requires 0 <= k < |s| && k < HIGH_SCORE_MAX
    ensures k < |Truncate(s)| && Truncate(s)[k] == s[k] && Truncate(s)[..k] == s[..k]
  {
    if |s| > HIGH_SCORE_MAX {
      assert s[..HIGH_SCORE_MAX][..k] == s[..k];
    }
  }

  /** A score that `isHighScore` rejects leaves an ordered table of at most five as
      it was. */
  lemma SubmitRejected(t: seq<HighScoreEntry>, e: HighScoreEntry)
    requires SortedDesc(t) && |t| <= HIGH_SCORE_MAX && e.score > 0 && !IsHighScore(t, e.score)
    ensures Submit(t, e) == t
  {
    SubmitIsInsert(t, e);
    RankOfLowest(t, e.score);
    assert InsertDesc(t, e)[..HIGH_SCORE_MAX] == t;
  }

  // ---- the entered name -------------------------------------------------------------------

  /** The characters `String.prototype.trim` removes: white space and line
      terminators. */
  predicate IsJsSpace(c: char)
  {
    || c == '\t' || c == '\n' || c == '\U{000B}' || c == '\U{000C}' || c == '\r' || c == ' '
    || c == '\U{00A0}' || c == '\U{1680}' || ('\U{2000}' <= c <= '\U{200A}')
    || c == '\U{2028}' || c == '\U{2029}' || c == '\U{202F}' || c == '\U{205F}'
    || c == '\U{3000}' || c == '\U{FEFF}'
  }

  /** The string without its leading white space. */
  function TrimStart(s: string): (r: string)
    ensures |r| <= |s| && r == s[|s| - |r|..]
    ensures forall k :: 0 <= k < |s| - |r| ==> IsJsSpace(s[k])
    ensures |r| > 0 ==> !IsJsSpace(r[0])
  {
    if |s| > 0 && IsJsSpace(s[0]) then TrimStart(s[1..]) else s
  }

  /** The string without its trailing white space. */
  function TrimEnd(s: string): (r: string)
    ensures |r| <= |s| && r == s[..|r|]
    ensures forall k :: |r| <= k < |s| ==> IsJsSpace(s[k])
    ensures |r| > 0 ==> !IsJsSpace(r[|r| - 1])
  {
    if |s| > 0 && IsJsSpace(s[|s| - 1]) then TrimEnd(s[..|s| - 1]) else s
  }

  /** `trim()`. */
  function Trim(s: string): string
  {
    TrimEnd(TrimStart(s))
  }

  /** Trimming twice is trimming once. */
  lemma {:induction false} TrimIdempotent(s: string)
    ensures Trim(Trim(s)) == Trim(s)
  {
    var t := Trim(s);
    if |t| > 0 {
      assert !IsJsSpace(t[0]);
      assert TrimStart(t) == t;
      assert TrimEnd(t) == t;
    } else {
      assert TrimStart(t) == t;
    }
  }

  /** `textBuffer.trim() || 'AAA'`: never blank, and without white space at either
      end. */
  function EntryName(buffer: string): (name: string)
    ensures |name| > 0 && !IsJsSpace(name[0]) && !IsJsSpace(name[|name| - 1])
    ensures name == "AAA" || name == Trim(buffer)
  {
    var t := Trim(buffer);
    if |t| == 0 then
      "AAA"
    else
      assert TrimStart(buffer)[0] == t[0];
      t
  }

  // ---- scoring ------------------------------------------------------------------------------

  /** The counters `updatePlaying` scores with: the score, the lives, the ghost
      combo and whether the extra life was given. */
  datatype Tally = Tally(score: int, lives: int, ghostCombo: nat, extraLifeAwarded: bool)

  /** A DOT scores 10; a POWER pellet scores 50 and restarts the ghost combo;
      anything else scores nothing. */
  function AteTile(t: Tally, eaten: Tile): (r: Tally)
    ensures r.score >= t.score && r.lives == t.lives && r.extraLifeAwarded == t.extraLifeAwarded
    ensures eaten == Power ==> r.ghostCombo == 0
  {
    if eaten == Dot then t.(score := t.score + SCORE_DOT)
    else if eaten == Power then t.(score := t.score + SCORE_POWER, ghostCombo := 0)
    else t
  }

  function Pow2(n: nat): (p: nat)
    ensures p >= 1
  {
    if n == 0 then 1 else 2 * Pow2(n - 1)
  }

  /** `SCORE_GHOST_BASE * Math.pow(2, ghostCombo)`. */
  function GhostPoints(combo: nat): int
  {
    SCORE_GHOST_BASE * Pow2(combo)
  }

  // ---- bonus fruit --------------------------------------------------------------------------

  /** The fruit bookkeeping of a level: dots eaten, fruits spawned so far, where a
      fruit appears, and the fruit on the field. */
  datatype Fruits = Fruits(dotsEaten: int, spawnCount: nat, spawn: TilePos, fruit: Option<BonusFruit>)

  /** A fruit the fruit bookkeeping can hold: a type the fruit table has. */
  predicate FruitTyped(f: Fruits)
  {
    f.fruit.Some? ==> 0 <= f.fruit.value.typeIndex < |FRUIT_POINTS|
  }

  /** `Math.min(level - 1, FRUIT_TYPES.length - 1)`. */
  function FruitTypeIndex(level: int): (i: int)
    ensures i <= |FRUIT_POINTS| - 1
    ensures level >= 1 ==> 0 <= i
  {
    if level - 1 < |FRUIT_POINTS| - 1 then level - 1 else |FRUIT_POINTS| - 1
  }

  /** `checkFruitSpawn`: once the dots eaten reach the next threshold, a fresh fruit
      of the level's type appears at the spawn; two thresholds, so two fruits at
      most. */
  function SpawnFruit(f: Fruits, level: int): (r: Fruits)
    ensures r.dotsEaten == f.dotsEaten && r.spawn == f.spawn
    ensures r.spawnCount == f.spawnCount + 1 <==>
              f.spawnCount < |FRUIT_DOT_THRESHOLDS| && f.dotsEaten >= FRUIT_DOT_THRESHOLDS[f.spawnCount]
    ensures r.spawnCount == f.spawnCount + 1 ==>
              r.fruit == Some(BonusFruit(f.spawn.col, f.spawn.row, FruitTypeIndex(level), 0.0, false))
    ensures r.spawnCount != f.spawnCount + 1 ==> r == f
    ensures level >= 1 && FruitTyped(f) ==> FruitTyped(r)
  {
    if f.spawnCount >= |FRUIT_DOT_THRESHOLDS| then f
    else if f.dotsEaten >= FRUIT_DOT_THRESHOLDS[f.spawnCount] then
      f.(fruit := Some(BonusFruit(f.spawn.col, f.spawn.row, FruitTypeIndex(level), 0.0, false)),
         spawnCount := f.spawnCount + 1)
    else f
  }

  /** A DOT or POWER pellet counts towards the fruit thresholds. */
  function CountDot(f: Fruits, eaten: Tile, level: int): (r: Fruits)
    ensures level >= 1 && FruitTyped(f) ==> FruitTyped(r)
  {
    if IsDotTile(eaten) then SpawnFruit(f.(dotsEaten := f.dotsEaten + 1), level) else f
  }

  /** Eating `n` dots, one frame at a time, from the start of a level. */
  function EatDots(f: Fruits, n: nat, level: int): Fruits
  {
    if n == 0 then f else CountDot(EatDots(f, n - 1, level), Dot, level)
  }

  /** From the start of a level, the first fruit appears with the 70th dot and the
      second with the 170th, and there is never a third. */
  lemma {:induction false} FruitThresholds(f: Fruits, n: nat, level: int)
    requires f.dotsEaten == 0 && f.spawnCount == 0
    ensures EatDots(f, n, level).dotsEaten == n
    ensures EatDots(f, n, level).spawnCount == (if n >= 170 then 2 else if n >= 70 then 1 else 0)
  {
    if n > 0 {
      FruitThresholds(f, n - 1, level);
    }
  }

  /** The fruit's centre, `col * TILE + TILE / 2` and the same for the row. */
  function FruitCentre(b: BonusFruit): Position
  {
    Position(Centre(b.col), Centre(b.row))
  }

  function Abs(v: real): real
  {
    if v < 0.0 then -v else v
  }

  /** `updateFruit`: a fresh fruit ages by dt; after ten seconds it is gone; while
      it lasts, Pac-Man within a tile of its centre on both axes eats it for its
      type's points. */
  function FruitTick(t: Tally, f: Fruits, dt: real, pac: Position): (r: (Tally, Fruits))
    requires FruitTyped(f)
    ensures r.1.dotsEaten == f.dotsEaten && r.1.spawnCount == f.spawnCount && r.1.spawn == f.spawn
    ensures r.0 == t || (f.fruit.Some? && r.0 == t.(score := t.score + FRUIT_POINTS[f.fruit.value.typeIndex])
                         && r.1.fruit.None?)
    ensures FruitTyped(r.1)
  {
    match f.fruit
    case None => (t, f)
    case Some(b) =>
      if b.eaten then (t, f)
      else
        var timer := b.timer + dt * 1000.0;
        if timer >= FRUIT_DURATION then (t, f.(fruit := None))
        else
          var c := FruitCentre(b);
          if Abs(pac.x - c.x) < TILE as real && Abs(pac.y - c.y) < TILE as real then
            (t.(score := t.score + FRUIT_POINTS[b.typeIndex]), f.(fruit := None))
          else (t, f.(fruit := Some(b.(timer := timer))))
  }

  // ---- ghost contacts ---------------------------------------------------------------------

  /** `dist < TILE * 0.7`, on squared distances. */
  predicate Near(pac: Position, g: GhostState)
  {
    var dx := pac.x - g.x;
    var dy := pac.y - g.y;
    dx * dx + dy * dy < (TILE as real * 0.7) * (TILE as real * 0.7)
  }

  /** A ghost Pac-Man eats on contact. */
  predicate Edible(pac: Position, g: GhostState)
  {
    g.released && Near(pac, g) && g.clock.mode == Frightened
  }

  /** A ghost that kills Pac-Man on contact. */
  predicate Deadly(pac: Position, g: GhostState)
  {
    g.released && Near(pac, g) && g.clock.mode != Frightened && g.clock.mode != Eaten
  }

  /** What the contact loop accumulates: the tally, the freeze timer and whether a
      ghost killed Pac-Man. */
  datatype Contact = Contact(tally: Tally, freeze: real, killed: bool)

  /** One ghost of the contact loop: an unreleased or distant ghost is skipped; a
      frightened one is eaten for 200 * 2^combo, the combo grows and the freeze
      starts; any other but an eaten one kills Pac-Man. */
  function ContactStep(c: Contact, pac: Position, g: GhostState): (Contact, GhostState)
  {
    if Edible(pac, g) then
      (Contact(c.tally.(score := c.tally.score + GhostPoints(c.tally.ghostCombo),
                        ghostCombo := c.tally.ghostCombo + 1), GHOST_EAT_FREEZE, c.killed),
       EatGhost(g))
    else if Deadly(pac, g) then (c.(killed := true), g)
    else (c, g)
  }

  /** The contact loop over the ghosts, in order. */
  function Contacts(c: Contact, pac: Position, gs: seq<GhostState>): (r: (Contact, seq<GhostState>))
    ensures |r.1| == |gs|
  {
    if |gs| == 0 then (c, [])
    else
      var before := Contacts(c, pac, gs[..|gs| - 1]);
      var step := ContactStep(before.0, pac, gs[|gs| - 1]);
      (step.0, before.1 + [step.1])
  }

  function CountEdible(pac: Position, gs: seq<GhostState>): nat
  {
    if |gs| == 0 then 0 else CountEdible(pac, gs[..|gs| - 1]) + (if Edible(pac, gs[|gs| - 1]) then 1 else 0)
  }

  /** One more ghost of the contact loop: the loop over the first i + 1 ghosts is
      the loop over the first i followed by one ContactStep. */
  lemma ContactsNext(c: Contact, pac: Position, gs: seq<GhostState>, i: int)
    requires 0 <= i < |gs|
    ensures var before := Contacts(c, pac, gs[..i]); var step := ContactStep(before.0, pac, gs[i]);
      Contacts(c, pac, gs[..i + 1]) == (step.0, before.1 + [step.1])
  {
    assert gs[..i + 1][..i] == gs[..i];
  }

  /** Pac-Man dies in the contact loop exactly when some released ghost that is
      neither frightened nor eaten is near. */
  lemma {:induction false} ContactsKill(c: Contact, pac: Position, gs: seq<GhostState>)
    ensures Contacts(c, pac, gs).0.killed <==> c.killed || exists i :: 0 <= i < |gs| && Deadly(pac, gs[i])
  {
    if |gs| > 0 {
      var front := gs[..|gs| - 1];
      ContactsKill(c, pac, front);
      if exists i :: 0 <= i < |gs| && Deadly(pac, gs[i]) {
        var i :| 0 <= i < |gs| && Deadly(pac, gs[i]);
        if i < |gs| - 1 {
          assert Deadly(pac, front[i]);
        }
      }
      if exists i :: 0 <= i < |front| && Deadly(pac, front[i]) {
        var i :| 0 <= i < |front| && Deadly(pac, front[i]);
        assert Deadly(pac, gs[i]);
      }
    }
  }

  /** Every near frightened ghost is eaten by the contact loop and every other
      ghost is left as it was. */
  lemma {:induction false} ContactsEat(c: Contact, pac: Position, gs: seq<GhostState>)
    ensures forall i :: 0 <= i < |gs| ==>
              Contacts(c, pac, gs).1[i] == if Edible(pac, gs[i]) then EatGhost(gs[i]) else gs[i]
  {
    if |gs| > 0 {
      var front := gs[..|gs| - 1];
      ContactsEat(c, pac, front);
      var out := Contacts(c, pac, gs).1;
      assert out[..|gs| - 1] == Contacts(c, pac, front).1;
      forall i | 0 <= i < |gs| - 1
        ensures out[i] == if Edible(pac, gs[i]) then EatGhost(gs[i]) else gs[i]
      {
        assert gs[i] == front[i];
        assert out[i] == Contacts(c, pac, front).1[i];
      }
    }
  }

  /** The combo grows by the number of ghosts eaten and the score by
      200 * (2^newCombo - 2^oldCombo), so the k-th ghost after a pellet is worth
      200 * 2^(k-1); the freeze starts exactly when a ghost is eaten; lives and
      the extra-life flag are untouched. */
  lemma {:induction false} ContactsScore(c: Contact, pac: Position, gs: seq<GhostState>)
    ensures var r := Contacts(c, pac, gs).0;
      && r.tally.ghostCombo == c.tally.ghostCombo + CountEdible(pac, gs)
      && r.tally.score == c.tally.score + SCORE_GHOST_BASE * (Pow2(r.tally.ghostCombo) - Pow2(c.tally.ghostCombo))
      && r.freeze == (if CountEdible(pac, gs) > 0 then GHOST_EAT_FREEZE else c.freeze)
      && r.tally.lives == c.tally.lives && r.tally.extraLifeAwarded == c.tally.extraLifeAwarded
  {
    if |gs| > 0 {
      ContactsScore(c, pac, gs[..|gs| - 1]);
    }
  }

  /** A ghost that is not released is never touched by the contact loop and never
      kills. */
  lemma UnreleasedNeverCollide(pac: Position, g: GhostState)
    requires !g.released
    ensures !Edible(pac, g) && !Deadly(pac, g)
    ensures forall c: Contact :: ContactStep(c, pac, g) == (c, g)
  {
  }

  // ---- the extra life -----------------------------------------------------------------------

  /** The extra life: the first time the score reaches 10000, one more life. */
  function ExtraLife(t: Tally): (r: Tally)
    ensures r.score == t.score && r.ghostCombo == t.ghostCombo && r.extraLifeAwarded
            == (t.extraLifeAwarded || t.score >= EXTRA_LIFE_AT)
    ensures r.lives == t.lives + (if !t.extraLifeAwarded && t.score >= EXTRA_LIFE_AT then 1 else 0)
  {
    if !t.extraLifeAwarded && t.score >= EXTRA_LIFE_AT then t.(lives := t.lives + 1, extraLifeAwarded := true)
    else t
  }

  /** Frames of play that add the given points and then check for the extra life. */
  function ScoreRun(t: Tally, points: seq<nat>): Tally
  {
    if |points| == 0 then t
    else ExtraLife(ScoreRun(t, points[..|points| - 1]).(score := ScoreRun(t, points[..|points| - 1]).score + points[|points| - 1]))
  }

  function Total(points: seq<nat>): nat
  {
    if |points| == 0 then 0 else Total(points[..|points| - 1]) + points[|points| - 1]
  }

  /** However the points come, one game gives the extra life at most once: the lives
      grow by one exactly when the flag was clear and the score reached 10000. */
  lemma {:induction false} ExtraLifeOnce(t: Tally, points: seq<nat>)
    ensures ScoreRun(t, points).score == t.score + Total(points)
    ensures ScoreRun(t, points).extraLifeAwarded
            == (t.extraLifeAwarded || (|points| > 0 && t.score + Total(points) >= EXTRA_LIFE_AT))
    ensures ScoreRun(t, points).lives
            == t.lives + (if !t.extraLifeAwarded && |points| > 0 && t.score + Total(points) >= EXTRA_LIFE_AT then 1 else 0)
  {
    if |points| > 0 {
      ExtraLifeOnce(t, points[..|points| - 1]);
    }
  }

  // ---- one frame of play, on values ------------------------------------------------------

  /** The game's own fields. */
  datatype Session = Session(phase: GamePhase, phaseTimer: real, level: int, tally: Tally, fruits: Fruits,
                             freezeTimer: real, highScores: seq<HighScoreEntry>, banner: real)

  /** Everything a frame of play may change: the game's fields, the map's grid, dot
      counter and gate clock, Pac-Man, the ghosts in order, and the input. */
  datatype World = World(session: Session, tiles: seq<seq<Tile>>, dotsRemaining: int, gate: GateClock,
                         pac: PacState, ghosts: seq<GhostState>, input: InputState)

  /** What the frame reads but never changes: the warp pairs, each ghost's
      configuration and Pac-Man's spawn. */
  datatype Setting = Setting(warpPairs: seq<WarpPair>, cfgs: seq<GhostConfig>, spawn: Position)

  function PacAt(w: World): Position
  {
    Position(w.pac.x, w.pac.y)
  }

  function ViewOf(st: Setting, w: World): MapView
  {
    MapView(w.tiles, st.warpPairs)
  }

  /** The inputs a frame can be played on: a loaded grid, one configuration and one
      wave per ghost, a fruit of a known type, a level from 1 on. */
  predicate Playable(st: Setting, w: World, waves: seq<real>)
  {
    && Shaped(w.tiles) && |st.cfgs| == |w.ghosts| == |waves| > 0
    && FruitTyped(w.session.fruits) && w.session.level >= 1
  }

  /** The freeze after a ghost is eaten: only the freeze timer runs. */
  function Frozen(w: World, dt: real): World
  {
    w.(session := w.session.(freezeTimer := w.session.freezeTimer - dt * 1000.0))
  }

  /** `consumePause` raised: the game pauses and the flag is cleared. */
  function PauseGame(w: World): World
  {
    w.(session := w.session.(phase := Paused), input := w.input.(flags := w.input.flags.(pause := false)))
  }

  /** `consumeGate` and the manual gate toggle. */
  function ToggleGate(w: World): World
  {
    w.(input := w.input.(flags := w.input.flags.(gate := false)),
       gate := if w.input.flags.gate then w.gate.(open := !w.gate.open) else w.gate)
  }

  /** The buffered direction handed to Pac-Man, then one Pac-Man update. */
  function MovePac(st: Setting, w: World, dt: real): World
    requires Shaped(w.tiles)
  {
    w.(pac := Step(w.pac.(nextDir := w.input.bufferedDir), dt, ViewOf(st, w)))
  }

  /** The ghost loop: each ghost updates in order, and every ghost but the first is
      given the first one's tile after its own update, as the leader Inky aims from. */
  function MoveAll(cfgs: seq<GhostConfig>, gs: seq<GhostState>, dt: real, m: MapView, pac: Position,
                   pacDir: Direction, waves: seq<real>): (r: seq<GhostState>)
    requires Shaped(m.tiles) && |cfgs| == |gs| == |waves| > 0
    ensures |r| == |gs|
    ensures forall i :: 0 <= i < |gs| ==>
      r[i] == GhostStep(cfgs[i], gs[i], dt, m, pac, pacDir, if i == 0 then None else Some(ToTile(r[0].x, r[0].y)), waves[i])
  {
    var b := GhostStep(cfgs[0], gs[0], dt, m, pac, pacDir, None, waves[0]);
    seq(|gs|, i requires 0 <= i < |gs| =>
      if i == 0 then b else GhostStep(cfgs[i], gs[i], dt, m, pac, pacDir, Some(ToTile(b.x, b.y)), waves[i]))
  }

  function MoveGhosts(st: Setting, w: World, dt: real, waves: seq<real>): World
    requires Shaped(w.tiles) && |st.cfgs| == |w.ghosts| == |waves| > 0
  {
    w.(ghosts := MoveAll(st.cfgs, w.ghosts, dt, ViewOf(st, w), PacAt(w), w.pac.dir, waves))
  }

  /** `updateGate(dt * 1000)`. */
  function TickGate(w: World, dt: real): World
  {
    w.(gate := GateStep(w.gate, dt * 1000.0))
  }

  /** What `eatDot` at Pac-Man's tile returns. */
  function EatenAt(w: World): (t: Tile)
    ensures t == Dot || t == Power || t == Empty
  {
    var p := ToTile(w.pac.x, w.pac.y);
    var was := TileAt(w.tiles, p.col, p.row);
    if was.Some? && IsDotTile(was.value) then was.value else Empty
  }

  function FrightenAll(gs: seq<GhostState>): (r: seq<GhostState>)
    ensures |r| == |gs| && forall i :: 0 <= i < |gs| ==> r[i] == FrightenGhost(gs[i])
  {
    seq(|gs|, i requires 0 <= i < |gs| => FrightenGhost(gs[i]))
  }

  /** The dot at Pac-Man's tile: the tile empties and the counter drops; a DOT or a
      POWER pellet is scored and counted towards the fruit, and a POWER pellet
      frightens every ghost. */
  function EatStage(w: World): (r: World)
    ensures r.session.level == w.session.level
    ensures w.session.level >= 1 && FruitTyped(w.session.fruits) ==> FruitTyped(r.session.fruits)
  {
    var p := ToTile(w.pac.x, w.pac.y);
    var eaten := EatenAt(w);
    var s := w.session;
    w.(tiles := if eaten == Empty then w.tiles else w.tiles[p.row := w.tiles[p.row][p.col := Empty]],
       dotsRemaining := if eaten == Empty then w.dotsRemaining else w.dotsRemaining - 1,
       session := s.(tally := AteTile(s.tally, eaten), fruits := CountDot(s.fruits, eaten, s.level)),
       ghosts := if eaten == Power then FrightenAll(w.ghosts) else w.ghosts)
  }

  /** `updateFruit`. */
  function FruitStage(w: World, dt: real): World
    requires FruitTyped(w.session.fruits)
  {
    var (t, f) := FruitTick(w.session.tally, w.session.fruits, dt, PacAt(w));
    w.(session := w.session.(tally := t, fruits := f))
  }

  /** The frame up to the ghost contacts: gate toggle, Pac-Man, the ghosts, the gate
      clock, the dot and the fruit. */
  function BeforeContacts(st: Setting, w: World, dt: real, waves: seq<real>): (b: World)
    requires Playable(st, w, waves)
    ensures b.session.phase == w.session.phase && b.session.freezeTimer == w.session.freezeTimer
    ensures b.session.tally.lives == w.session.tally.lives
    ensures b.session.tally.extraLifeAwarded == w.session.tally.extraLifeAwarded
  {
    FruitStage(EatStage(MoveStage(st, w, dt, waves)), dt)
  }

  /** The frame up to the dot: the gate toggle, Pac-Man, the ghosts and the gate clock. */
  function MoveStage(st: Setting, w: World, dt: real, waves: seq<real>): (m: World)
    requires Playable(st, w, waves)
    ensures m.session == w.session && Playable(st, m, waves)
  {
    TickGate(MoveGhosts(st, MovePac(st, ToggleGate(w), dt), dt, waves), dt)
  }

  /** The contact loop applied to the frame. */
  function ContactStage(w: World): World
  {
    var (c, gs) := Contacts(Contact(w.session.tally, w.session.freezeTimer, false), PacAt(w), w.ghosts);
    w.(session := w.session.(tally := c.tally, freezeTimer := c.freeze), ghosts := gs)
  }

  predicate Killed(w: World)
  {
    Contacts(Contact(w.session.tally, w.session.freezeTimer, false), PacAt(w), w.ghosts).0.killed
  }

  /** `pacmanDie`. */
  function Die(w: World): World
  {
    w.(pac := w.pac.(alive := false), session := w.session.(phase := Dead, phaseTimer := 0.0))
  }

  /** The end of a frame Pac-Man survived: the extra life, then the level clear once
      no dot is left, which also removes the fruit. */
  function Finish(w: World): World
  {
    var s := w.session.(tally := ExtraLife(w.session.tally));
    if w.dotsRemaining <= 0 then
      w.(session := s.(phase := LevelClear, phaseTimer := 0.0, fruits := s.fruits.(fruit := None)))
    else w.(session := s)
  }

  /** A frame of play past the freeze, pause and restart checks. */
  function Play(st: Setting, w: World, dt: real, waves: seq<real>): World
    requires Playable(st, w, waves)
  {
    AfterContacts(BeforeContacts(st, w, dt, waves))
  }

  /** The contact loop, then `pacmanDie` or the end of the frame. */
  function AfterContacts(b: World): World
  {
    if Killed(b) then Die(ContactStage(b)) else Finish(ContactStage(b))
  }

  /** Nothing in the frame before the dot touches the game's fields. The dot at
      Pac-Man's tile scores 10 for a DOT and 50 for a POWER pellet; a pellet also
      restarts the combo and frightens every ghost; either kind empties its tile,
      lowers the counter and counts towards the fruit; anything else changes
      nothing. */
  lemma PlayEats(st: Setting, w: World, dt: real, waves: seq<real>)
    requires Playable(st, w, waves)
    ensures var m := MoveStage(st, w, dt, waves); var e := EatenAt(m); var a := EatStage(m);
      && m.session == w.session
      && a.session.tally.score == m.session.tally.score + (if e == Dot then SCORE_DOT else if e == Power then SCORE_POWER else 0)
      && a.session.tally.lives == m.session.tally.lives
      && (e == Power ==> a.session.tally.ghostCombo == 0 && a.ghosts == FrightenAll(m.ghosts))
      && (e != Power ==> a.ghosts == m.ghosts && a.session.tally.ghostCombo == m.session.tally.ghostCombo)
      && (e == Empty ==> a == m)
      && (e != Empty ==>
            && a.dotsRemaining == m.dotsRemaining - 1
            && a.session.fruits == SpawnFruit(m.session.fruits.(dotsEaten := m.session.fruits.dotsEaten + 1), w.session.level))
  {
  }

  /** The contacts at the end of a frame of play: Pac-Man dies exactly when a
      released ghost that is neither frightened nor eaten is near him, and then lies
      dead with the phase timer restarted; every near frightened ghost is eaten, the
      k-th one since the last pellet for 200 * 2^(k-1), and the freeze starts
      exactly when one is; a surviving Pac-Man gets the extra life the first time
      the score reaches 10000, and clears the level once no dot is left. */
  lemma {:induction false} ContactOutcome(b: World)
    requires b.session.phase == Playing
    ensures var r := AfterContacts(b); var pac := PacAt(b); var eatenCount := CountEdible(pac, b.ghosts);
      && (r.session.phase == Dead <==> exists i :: 0 <= i < |b.ghosts| && Deadly(pac, b.ghosts[i]))
      && (r.session.phase == Dead ==> !r.pac.alive && r.session.phaseTimer == 0.0
                                      && r.session.tally.lives == b.session.tally.lives)
      && (r.session.phase == LevelClear <==> r.session.phase != Dead && b.dotsRemaining <= 0)
      && (r.session.phase == LevelClear ==> r.session.fruits.fruit.None? && r.session.phaseTimer == 0.0)
      && |r.ghosts| == |b.ghosts|
      && (forall i :: 0 <= i < |b.ghosts| ==>
            r.ghosts[i] == if Edible(pac, b.ghosts[i]) then EatGhost(b.ghosts[i]) else b.ghosts[i])
      && r.session.tally.ghostCombo == b.session.tally.ghostCombo + eatenCount
      && r.session.tally.score == b.session.tally.score
           + SCORE_GHOST_BASE * (Pow2(r.session.tally.ghostCombo) - Pow2(b.session.tally.ghostCombo))
      && r.session.freezeTimer == (if eatenCount > 0 then GHOST_EAT_FREEZE else b.session.freezeTimer)
      && (r.session.phase != Dead ==>
            r.session.tally.lives == b.session.tally.lives
              + (if !b.session.tally.extraLifeAwarded && r.session.tally.score >= EXTRA_LIFE_AT then 1 else 0))
  {
    var c := Contact(b.session.tally, b.session.freezeTimer, false);
    ContactsKill(c, PacAt(b), b.ghosts);
    ContactsEat(c, PacAt(b), b.ghosts);
    ContactsScore(c, PacAt(b), b.ghosts);
  }

  // ---- a death, on values -----------------------------------------------------------------

  /** Pac-Man after `reset`, at the given spawn. */
  function Respawned(spawn: Position): PacState
  {
    PacState(spawn.x, spawn.y, Left, Left, true, 0.0, [], NO_WARP)
  }

  /** Every ghost after `reset`. */
  function ResetAll(cfgs: seq<GhostConfig>, gs: seq<GhostState>): (r: seq<GhostState>)
    requires |cfgs| == |gs|
    ensures |r| == |gs| && forall i :: 0 <= i < |gs| ==> r[i] == AtSpawn(cfgs[i], gs[i].speed)
  {
    seq(|gs|, i requires 0 <= i < |gs| => AtSpawn(cfgs[i], gs[i].speed))
  }

  /** `updateDead`: the phase timer runs and Pac-Man's death animation is updated;
      once the timer reaches 1500 a life is lost. Without lives left the game goes
      to name entry, with the name prompt opened, when the score makes the table,
      and to game over otherwise; with lives left Pac-Man and the ghosts go back to
      their spawns for a new READY phase. */
  function DeadFrame(st: Setting, w: World, dt: real): World
    requires Shaped(w.tiles) && |st.cfgs| == |w.ghosts|
  {
    LifeLost(st, DeathTick(st, w, dt))
  }

  /** The part of `updateDead` every frame runs: the timer and the death animation. */
  function DeathTick(st: Setting, w: World, dt: real): (r: World)
    requires Shaped(w.tiles)
    ensures r.ghosts == w.ghosts
  {
    w.(session := w.session.(phaseTimer := w.session.phaseTimer + dt * 1000.0), pac := Step(w.pac, dt, ViewOf(st, w)))
  }

  /** The part of `updateDead` once the timer has reached 1500. */
  function LifeLost(st: Setting, w: World): World
    requires |st.cfgs| == |w.ghosts|
  {
    var s := w.session;
    if s.phaseTimer < DEAD_DURATION then w
    else
      var s1 := s.(tally := s.tally.(lives := s.tally.lives - 1));
      if s1.tally.lives <= 0 then
        if IsHighScore(s.highScores, s.tally.score) then
          w.(session := s1.(phase := EnterName), input := w.input.(text := NamePrompt(true, "", false)))
        else
          w.(session := s1.(phase := GameOver))
      else
        w.(session := s1.(phase := Ready, phaseTimer := 0.0), pac := Respawned(st.spawn),
           ghosts := ResetAll(st.cfgs, w.ghosts))
  }

  /** Once the death animation is over, exactly one life is gone; the game ends
      exactly when that was the last life, and then asks for a name exactly when the
      score would rank inside the first five of an ordered table of at most five;
      otherwise the next try starts from the spawns. Before that only the timer and
      Pac-Man's death animation advance. */
  lemma {:induction false} DeathOutcome(st: Setting, w: World, dt: real)
    requires Shaped(w.tiles) && |st.cfgs| == |w.ghosts|
    requires SortedDesc(w.session.highScores) && |w.session.highScores| <= HIGH_SCORE_MAX
    ensures var r := DeadFrame(st, w, dt); var t := w.session.phaseTimer + dt * 1000.0;
      var score := w.session.tally.score;
      && (t < DEAD_DURATION ==> r.session.phase == w.session.phase && r.session.tally == w.session.tally
                                && r.ghosts == w.ghosts && r.pac == Step(w.pac, dt, ViewOf(st, w)))
      && (t >= DEAD_DURATION ==>
            && r.session.tally.lives == w.session.tally.lives - 1
            && ((r.session.phase == EnterName || r.session.phase == GameOver) <==> w.session.tally.lives <= 1)
            && (r.session.phase == EnterName <==>
                  w.session.tally.lives <= 1 && score > 0 && Rank(w.session.highScores, score) < HIGH_SCORE_MAX)
            && (r.session.phase == EnterName ==> r.input.text == NamePrompt(true, "", false))
            && (w.session.tally.lives > 1 ==>
                  r.session.phase == Ready && r.session.phaseTimer == 0.0 && r.pac == Respawned(st.spawn)
                  && forall i :: 0 <= i < |w.ghosts| ==> r.ghosts[i] == AtSpawn(st.cfgs[i], w.ghosts[i].speed)))
  {
    var score := w.session.tally.score;
    if score > 0 {
      HighScoreMeaning(w.session.highScores, score);
    }
  }

  // ---- name entry, on values ----------------------------------------------------------------

  /** The table after `updateEnterName` accepts the typed name. */
  function Entered(t: seq<HighScoreEntry>, buffer: string, score: int): (r: seq<HighScoreEntry>)
    ensures SortedDesc(r) && |r| <= HIGH_SCORE_MAX
  {
    Submit(t, HighScoreEntry(EntryName(buffer), score))
  }

  // ---- a new game, on values ----------------------------------------------------------------

  /** `startGame` on the game's fields, given the board `loadLevel(1)` finds: score
      0, three lives, no extra life yet, level 1, no dot eaten and no fruit, no
      freeze; with a board the fruit spawn is the board's and the game is READY,
      without one the source throws before the phase changes. The ghost combo is
      left as it was. */
  function Restart(s: Session, board: Option<BoardData>): (r: Session)
    ensures r.level == 1 && r.tally.score == 0 && r.tally.lives == 3 && !r.tally.extraLifeAwarded
    ensures r.fruits.dotsEaten == 0 && r.fruits.spawnCount == 0 && r.fruits.fruit.None? && r.freezeTimer == 0.0
    ensures r.highScores == s.highScores && r.banner == s.banner && r.tally.ghostCombo == s.tally.ghostCombo
    ensures board.Some? ==> r.phase == Ready && r.phaseTimer == 0.0 && r.fruits.spawn == board.value.fruitSpawn
    ensures board.None? ==> r.phase == s.phase && r.phaseTimer == s.phaseTimer && r.fruits.spawn == s.fruits.spawn
  {
    var n := s.(tally := Tally(0, 3, s.tally.ghostCombo, false), level := 1, freezeTimer := 0.0,
                fruits := Fruits(0, 0, if board.Some? then board.value.fruitSpawn else s.fruits.spawn, None));
    if board.Some? then n.(phase := Ready, phaseTimer := 0.0) else n
  }

  // ---- the game object ----------------------------------------------------------------------

  /** The ghost objects' snapshots, in order. */
  function States(gs: seq<Ghost>): (r: seq<GhostState>)
    reads gs
    ensures |r| == |gs| && forall i :: 0 <= i < |gs| ==> r[i] == gs[i].State()
  {
    seq(|gs|, i requires 0 <= i < |gs| reads gs => gs[i].State())
  }

  /** The ghost objects' configurations, in order. */
  function Configs(gs: seq<Ghost>): (r: seq<GhostConfig>)
    reads gs
    ensures |r| == |gs| && forall i :: 0 <= i < |gs| ==> r[i] == gs[i].cfg
  {
    seq(|gs|, i requires 0 <= i < |gs| reads gs => gs[i].cfg)
  }

  /** `scatterTargets[i] ?? scatterTargets[0]`. */
  function ScatterFor(targets: seq<TilePos>, i: int): TilePos
    requires |targets| > 0
  {
    if 0 <= i < |targets| then targets[i] else targets[0]
  }

  /** Ghost `i`'s configuration as `loadLevel` takes it from board `b`: the i-th
      spawn, the house entrance and the i-th scatter corner. */
  predicate FromBoard(cfg: GhostConfig, b: BoardData, i: int)
    requires 0 <= i < |b.ghostSpawns| && |b.scatterTargets| > 0
  {
    var sp := b.ghostSpawns[i];
    && cfg.start == TilePos(sp.startCol, sp.startRow) && cfg.startDir == sp.startDir
    && cfg.releaseDelay == sp.releaseDelay && cfg.releaseDir == sp.releaseDir
    && cfg.entrance == b.ghostHouseEntrance && cfg.scatterTarget == ScatterFor(b.scatterTargets, i)
  }

  /** The game. The score, lives, ghost combo and extra-life flag are held together as
      `tally`; the dots eaten this level, the fruits spawned, the fruit spawn tile and
      the fruit on the field as `fruits`. */
  class Game {
    var phase: GamePhase
    var phaseTimer: real
    var level: int
    var tally: Tally
    var fruits: Fruits
    var freezeTimer: real
    var highScores: seq<HighScoreEntry>
    var newHighScoreBanner: real
    const tileMap: TileMap
    const pacman: PacMan
    const ghosts: seq<Ghost>
    const input: InputHandler
    const levels: LevelManager

    function Fields(): Session
      reads this
    {
      Session(phase, phaseTimer, level, tally, fruits, freezeTimer, highScores, newHighScoreBanner)
    }

    function Snapshot(): World
      reads this, tileMap, pacman, ghosts, input
    {
      World(Fields(), tileMap.tiles, tileMap.dotsRemaining, tileMap.Gate(), pacman.State(), States(ghosts), input.State())
    }

    function Context(): Setting
      reads tileMap, pacman, ghosts
    {
      Setting(tileMap.warpPairs, Configs(ghosts), Position(pacman.spawnX, pacman.spawnY))
    }

    predicate Distinct()
    {
      forall i, j :: 0 <= i < j < |ghosts| ==> ghosts[i] != ghosts[j]
    }

    /** Four distinct ghosts, a consistent map and input, boards with their four
        scatter corners, a level from 1 on and a fruit of a known type. */
    predicate Valid()
      reads this, tileMap, input, levels
    {
      && |ghosts| == 4 && Distinct()
      && tileMap.Valid() && input.Valid()
      && HasCorners(levels.boards)
      && level >= 1 && FruitTyped(fruits)
    }

    /** `new Game(canvas)`: an empty map, Pac-Man and the four ghosts at their
        default spawns, a fresh input handler, the level manager over the given board
        definitions and the stored high-score table, on the menu. */
    constructor(defs: seq<BoardDefinition>, stored: seq<HighScoreEntry>)
      ensures Valid()
      ensures Fields() == Session(Menu, 0.0, 1, Tally(0, 3, 0, false), Fruits(0, 0, TilePos(14, 17), None), 0.0, stored, 0.0)
      ensures levels.boards == Slots(defs) && tileMap.tiles == [] && input.State() == INITIAL_INPUT
      ensures forall i :: 0 <= i < |ghosts| ==> ghosts[i].cfg == DefaultConfig(i)
    {
      tileMap := new TileMap();
      pacman := new PacMan();
      var created := CreateGhosts();
      ghosts := created;
      input := new InputHandler();
      levels := new LevelManager(defs);
      phase := Menu;
      phaseTimer := 0.0;
      level := 1;
      tally := Tally(0, 3, 0, false);
      fruits := Fruits(0, 0, TilePos(14, 17), None);
      freezeTimer := 0.0;
      highScores := stored;
      newHighScoreBanner := 0.0;
    }

    /** The map rebuilt from board `b`. */
    predicate MapFrom(b: BoardData)
      reads tileMap
    {
      tileMap.Rebuilt(b) && tileMap.board == Some(b) && tileMap.warpPairs == b.warpPairs
    }

    /** Pac-Man's spawn at the board's, and Pac-Man reset there. */
    predicate PacmanFrom(b: BoardData)
      reads pacman
    {
      && pacman.spawnX == Centre(b.pacmanSpawn.col) && pacman.spawnY == Centre(b.pacmanSpawn.row)
      && pacman.State() == Respawned(Position(pacman.spawnX, pacman.spawnY))
    }

    /** Every ghost the board has a spawn for configured from it. */
    predicate GhostsFrom(b: BoardData)
      reads ghosts
    {
      && |b.scatterTargets| > 0
      && forall i :: 0 <= i < |ghosts| && i < |b.ghostSpawns| ==> FromBoard(ghosts[i].cfg, b, i)
    }

    /** Every ghost at the spawn of its configuration. */
    predicate GhostsAtSpawn()
      reads ghosts
    {
      forall i :: 0 <= i < |ghosts| ==> ghosts[i].State() == AtSpawn(ghosts[i].cfg, ghosts[i].speed)
    }

    /** What `loadLevel` sets up from board `b` in the actors: the map rebuilt from
        it, Pac-Man at its spawn, each ghost with a spawn configured from it, and every
        ghost back at its spawn. (The fruit spawn, a field of the game, is stated
        beside it.) */
    predicate LevelStart(b: BoardData)
      reads tileMap, pacman, ghosts
    {
      MapFrom(b) && PacmanFrom(b) && GhostsFrom(b) && GhostsAtSpawn()
    }

    /** `loadLevel(level)`: the level's board from the level manager, loaded into
        the map, Pac-Man, the fruit and the ghosts. Where no board is usable the
        source throws; here nothing changes and `loaded` is false. */
    method LoadLevel(n: int) returns (loaded: bool)
      requires Valid()
      modifies this, tileMap, pacman, ghosts
      ensures Valid()
      ensures loaded <==> BoardForLevel(levels.boards, n).Some?
      ensures loaded ==> LevelStart(BoardForLevel(levels.boards, n).value)
      ensures loaded ==> Fields() == old(Fields()).(fruits := old(fruits).(spawn := BoardForLevel(levels.boards, n).value.fruitSpawn))
      ensures !loaded ==> Snapshot() == old(Snapshot()) && Context() == old(Context())
    {
      var board := levels.GetBoardForLevel(n);
      if board.None? {
        return false;
      }
      var b := board.value;
      Install(b);
      ResetActors();
      loaded := true;
    }

    /** The part of `loadLevel` that reads the board: the map, Pac-Man's spawn, the
        fruit spawn and the ghost configurations. */
    method Install(b: BoardData)
      requires Valid() && |b.scatterTargets| == 4
      modifies this, tileMap, pacman, ghosts
      ensures Valid() && MapFrom(b) && GhostsFrom(b)
      ensures pacman.spawnX == Centre(b.pacmanSpawn.col) && pacman.spawnY == Centre(b.pacmanSpawn.row)
      ensures Fields() == old(Fields()).(fruits := old(fruits).(spawn := b.fruitSpawn))
    {
      tileMap.LoadBoard(b);
      pacman.SetSpawn(b.pacmanSpawn.col, b.pacmanSpawn.row);
      fruits := fruits.(spawn := b.fruitSpawn);
      ConfigureGhosts(b);
    }

    /** `pacman.reset()` followed by `ghosts.forEach(g => g.reset())`: every actor
        back at its spawn, nothing else changed. */
    method ResetActors()
      requires Distinct()
      modifies pacman, ghosts
      ensures pacman.spawnX == old(pacman.spawnX) && pacman.spawnY == old(pacman.spawnY)
      ensures pacman.State() == Respawned(Position(pacman.spawnX, pacman.spawnY))
      ensures forall i :: 0 <= i < |ghosts| ==>
        ghosts[i].cfg == old(ghosts[i].cfg) && ghosts[i].State() == AtSpawn(ghosts[i].cfg, old(ghosts[i].speed))
      ensures GhostsAtSpawn()
    {
      pacman.Reset();
      ResetGhosts();
    }

    /** The configure loop of `loadLevel`: ghost i takes the i-th spawn when the
        board has one. */
    method ConfigureGhosts(b: BoardData)
      requires Distinct() && |b.scatterTargets| > 0
      modifies ghosts
      ensures GhostsFrom(b)
      ensures forall i :: 0 <= i < |ghosts| ==>
        && (i < |b.ghostSpawns| ==> FromBoard(ghosts[i].cfg, b, i))
        && (i >= |b.ghostSpawns| ==> ghosts[i].cfg == old(ghosts[i].cfg))
        && ghosts[i].cfg.name == old(ghosts[i].cfg.name)
        && ghosts[i].State() == old(ghosts[i].State())
    {
      for i := 0 to |ghosts|
        invariant forall j :: 0 <= j < |ghosts| ==>
          && (j < i && j < |b.ghostSpawns| ==> FromBoard(ghosts[j].cfg, b, j))
          && (j >= i || j >= |b.ghostSpawns| ==> ghosts[j].cfg == old(ghosts[j].cfg))
          && ghosts[j].cfg.name == old(ghosts[j].cfg.name)
          && ghosts[j].State() == old(ghosts[j].State())
      {
        if i < |b.ghostSpawns| {
          ghosts[i].Configure(b.ghostSpawns[i], b.ghostHouseEntrance, ScatterFor(b.scatterTargets, i));
        }
      }
    }

    /** `ghosts.forEach(g => g.reset())`. */
    method ResetGhosts()
      requires Distinct()
      modifies ghosts
      ensures forall i :: 0 <= i < |ghosts| ==>
        ghosts[i].cfg == old(ghosts[i].cfg) && ghosts[i].State() == AtSpawn(ghosts[i].cfg, old(ghosts[i].speed))
    {
      for i := 0 to |ghosts|
        invariant forall j :: 0 <= j < |ghosts| ==> ghosts[j].cfg == old(ghosts[j].cfg)
        invariant forall j :: 0 <= j < i ==> ghosts[j].State() == AtSpawn(ghosts[j].cfg, old(ghosts[j].speed))
        invariant forall j :: i <= j < |ghosts| ==> ghosts[j].State() == old(ghosts[j].State())
      {
        ghosts[i].Reset();
      }
    }

    // ---- a frame of play, stage by stage ----

    /** `consumeGate` and the manual toggle of `gatesOpen`. */
    method ToggleGateInput()
      requires Valid()
      modifies tileMap, input
      ensures Valid()
      ensures Snapshot() == ToggleGate(old(Snapshot())) && Context() == old(Context())
      ensures tileMap.board == old(tileMap.board) && tileMap.totalDots == old(tileMap.totalDots)
    {
      var g := input.ConsumeGate();
      if g {
        tileMap.gatesOpen := !tileMap.gatesOpen;
      }
    }

    /** `pacman.nextDir = input.bufferedDir` and `pacman.update(dt, map)`. */
    method StepPacman(dt: real)
      requires Shaped(tileMap.tiles)
      modifies pacman
      ensures Snapshot() == MovePac(old(Context()), old(Snapshot()), dt) && Context() == old(Context())
    {
      pacman.nextDir := input.bufferedDir;
      pacman.Update(dt, tileMap);
    }

    /** The ghost loop of `updatePlaying`, as one stage of the frame. */
    method StepGhosts(dt: real, waves: seq<real>)
      requires Distinct() && Shaped(tileMap.tiles) && |waves| == |ghosts| > 0
      modifies ghosts
      ensures Snapshot() == MoveGhosts(old(Context()), old(Snapshot()), dt, waves) && Context() == old(Context())
    {
      ghost var st := Context();
      ghost var w := Snapshot();
      assert ViewOf(st, w) == tileMap.View() && PacAt(w) == Position(pacman.x, pacman.y) && w.pac.dir == pacman.dir;
      ghost var target := MoveAll(st.cfgs, w.ghosts, dt, ViewOf(st, w), PacAt(w), w.pac.dir, waves);
      UpdateGhosts(dt, waves, target);
      assert Snapshot() == w.(ghosts := target);
    }

    /** The ghost loop itself: every ghost updates in order, and every ghost but the
        first is handed the first one, `blinky`; `target` is what MoveAll says the
        loop leaves behind. */
    method UpdateGhosts(dt: real, waves: seq<real>, ghost target: seq<GhostState>)
      requires Distinct() && Shaped(tileMap.tiles) && |waves| == |ghosts| > 0
      requires target == MoveAll(Configs(ghosts), States(ghosts), dt, tileMap.View(), Position(pacman.x, pacman.y),
                                 pacman.dir, waves)
      modifies ghosts
      ensures States(ghosts) == target && Configs(ghosts) == old(Configs(ghosts))
    {
      ghost var cfgs := Configs(ghosts);
      ghost var gs0 := States(ghosts);
      var blinky := ghosts[0];
      for i := 0 to |ghosts|
        invariant SteppedSoFar(cfgs, gs0, target, i)
      {
        MoveNext(i, dt, waves, blinky, cfgs, gs0, target);
      }
      SteppedAll(cfgs, gs0, target);
    }

    /** A loop that has handled every ghost leaves exactly the `target` states. */
    lemma SteppedAll(cfgs: seq<GhostConfig>, gs0: seq<GhostState>, target: seq<GhostState>)
      requires SteppedSoFar(cfgs, gs0, target, |ghosts|)
      ensures States(ghosts) == target && Configs(ghosts) == cfgs
    {
    }

    /** The ghosts after a loop over them has handled its first `i`: those are in
        their `target` states, the others still in `gs0`, and every configuration
        is still `cfgs`. */
    ghost predicate SteppedSoFar(cfgs: seq<GhostConfig>, gs0: seq<GhostState>, target: seq<GhostState>, i: int)
      reads ghosts
    {
      && 0 <= i <= |ghosts| == |cfgs| == |gs0| == |target|
      && (forall j :: 0 <= j < |ghosts| ==> ghosts[j].cfg == cfgs[j])
      && (forall j :: 0 <= j < i ==> ghosts[j].State() == target[j])
      && (forall j :: i <= j < |ghosts| ==> ghosts[j].State() == gs0[j])
    }

    /** One turn of the ghost loop: ghost `i` updates, handed `blinky` unless it is
        `blinky` itself. */
    method MoveNext(i: int, dt: real, waves: seq<real>, blinky: Ghost, ghost cfgs: seq<GhostConfig>,
                    ghost gs0: seq<GhostState>, ghost target: seq<GhostState>)
      requires Distinct() && Shaped(tileMap.tiles) && |waves| == |ghosts| && 0 <= i < |ghosts| && blinky == ghosts[0]
      requires SteppedSoFar(cfgs, gs0, target, i)
      requires target == MoveAll(cfgs, gs0, dt, tileMap.View(), Position(pacman.x, pacman.y), pacman.dir, waves)
      modifies ghosts
      ensures SteppedSoFar(cfgs, gs0, target, i + 1)
    {
      var leader := if ghosts[i] == blinky then null else blinky;
      assert leader == null <==> i == 0;
      assert i > 0 ==> blinky.GetTile() == ToTile(target[0].x, target[0].y);
      UpdateAt(i, dt, leader, waves[i]);
      assert ghosts[i].State() == target[i];
    }

    /** The `i`th ghost of the ghost loop, handed `leader`; the other ghosts are left
        as they are. */
    method UpdateAt(i: int, dt: real, leader: Ghost?, wave: real)
      requires Distinct() && Shaped(tileMap.tiles) && 0 <= i < |ghosts| && leader != ghosts[i]
      modifies ghosts[i]
      ensures ghosts[i].State() == GhostStep(ghosts[i].cfg, old(ghosts[i].State()), dt, tileMap.View(),
        Position(pacman.x, pacman.y), pacman.dir, if leader == null then None else Some(old(leader.GetTile())), wave)
      ensures forall j :: 0 <= j < |ghosts| ==> ghosts[j].cfg == old(ghosts[j].cfg)
      ensures forall j :: 0 <= j < |ghosts| && j != i ==> ghosts[j].State() == old(ghosts[j].State())
    {
      ghosts[i].Update(dt, tileMap, pacman, leader, wave);
    }

    /** `map.updateGate(dt * 1000)`. */
    method StepGate(dt: real)
      requires Valid()
      modifies tileMap
      ensures Valid()
      ensures Snapshot() == TickGate(old(Snapshot()), dt) && Context() == old(Context())
      ensures tileMap.board == old(tileMap.board) && tileMap.totalDots == old(tileMap.totalDots)
    {
      tileMap.UpdateGate(dt * 1000.0);
    }

    /** The dot at Pac-Man's tile: `eatDot`, then the DOT or POWER branch of
        `updatePlaying`. */
    method EatAtPacman()
      requires Valid() && Shaped(tileMap.tiles)
      modifies this, tileMap, ghosts
      ensures Valid()
      ensures Snapshot() == EatStage(old(Snapshot())) && Context() == old(Context())
      ensures tileMap.board == old(tileMap.board) && tileMap.totalDots == old(tileMap.totalDots)
    {
      var pt := ToTile(pacman.x, pacman.y);
      var eaten := tileMap.EatDot(pt.col, pt.row);
      ScoreEaten(eaten);
    }

    /** The DOT and POWER branches of `updatePlaying` for what `eatDot` returned. */
    method ScoreEaten(eaten: Tile)
      requires Distinct()
      modifies this, ghosts
      ensures Fields() == old(Fields()).(tally := AteTile(old(tally), eaten), fruits := CountDot(old(fruits), eaten, level))
      ensures States(ghosts) == (if eaten == Power then FrightenAll(old(States(ghosts))) else old(States(ghosts)))
      ensures Configs(ghosts) == old(Configs(ghosts))
    {
      if eaten == Dot {
        tally := tally.(score := tally.score + SCORE_DOT);
        fruits := fruits.(dotsEaten := fruits.dotsEaten + 1);
        CheckFruitSpawn();
      } else if eaten == Power {
        ScorePower();
      }
    }

    /** The POWER branch: 50 points, the combo restarts, every ghost is frightened
        and the pellet counts towards the fruit. */
    method ScorePower()
      requires Distinct()
      modifies this, ghosts
      ensures Fields() == old(Fields()).(tally := AteTile(old(tally), Power), fruits := CountDot(old(fruits), Power, level))
      ensures States(ghosts) == FrightenAll(old(States(ghosts))) && Configs(ghosts) == old(Configs(ghosts))
    {
      tally := tally.(score := tally.score + SCORE_POWER);
      fruits := fruits.(dotsEaten := fruits.dotsEaten + 1);
      tally := tally.(ghostCombo := 0);
      FrightenGhosts();
      CheckFruitSpawn();
    }

    /** `checkFruitSpawn`. */
    method CheckFruitSpawn()
      modifies this
      ensures Fields() == old(Fields()).(fruits := SpawnFruit(old(fruits), level))
    {
      if fruits.spawnCount >= |FRUIT_DOT_THRESHOLDS| {
        return;
      }
      if fruits.dotsEaten >= FRUIT_DOT_THRESHOLDS[fruits.spawnCount] {
        var typeIndex := FruitTypeIndex(level);
        fruits := fruits.(fruit := Some(BonusFruit(fruits.spawn.col, fruits.spawn.row, typeIndex, 0.0, false)),
                          spawnCount := fruits.spawnCount + 1);
      }
    }

    /** `for (const g of this.ghosts) g.frighten()`. */
    method FrightenGhosts()
      requires Distinct()
      modifies ghosts
      ensures States(ghosts) == FrightenAll(old(States(ghosts))) && Configs(ghosts) == old(Configs(ghosts))
    {
      ghost var gs0 := States(ghosts);
      ghost var cfgs := Configs(ghosts);
      for i := 0 to |ghosts|
        invariant SteppedSoFar(cfgs, gs0, FrightenAll(gs0), i)
      {
        FrightenNext(i, cfgs, gs0);
      }
      SteppedAll(cfgs, gs0, FrightenAll(gs0));
    }

    /** One turn of the frighten loop. */
    method FrightenNext(i: int, ghost cfgs: seq<GhostConfig>, ghost gs0: seq<GhostState>)
      requires Distinct() && 0 <= i < |ghosts| && SteppedSoFar(cfgs, gs0, FrightenAll(gs0), i)
      modifies ghosts
      ensures SteppedSoFar(cfgs, gs0, FrightenAll(gs0), i + 1)
    {
      label before:
      ghosts[i].Frighten();
      assert forall j :: 0 <= j < |ghosts| && j != i ==> ghosts[j].State() == old@before(ghosts[j].State());
    }

    /** `updateFruit`. */
    method UpdateFruit(dt: real)
      requires Valid()
      modifies this
      ensures Valid()
      ensures (tally, fruits) == FruitTick(old(tally), old(fruits), dt, Position(pacman.x, pacman.y))
      ensures Fields() == old(Fields()).(tally := tally, fruits := fruits)
      ensures Snapshot() == FruitStage(old(Snapshot()), dt)
    {
      if fruits.fruit.None? || fruits.fruit.value.eaten {
        return;
      }
      var b := fruits.fruit.value.(timer := fruits.fruit.value.timer + dt * 1000.0);
      fruits := fruits.(fruit := Some(b));
      if b.timer >= FRUIT_DURATION {
        fruits := fruits.(fruit := None);
        return;
      }
      var fx := Centre(b.col);
      var fy := Centre(b.row);
      var dx := pacman.x - fx;
      var dy := pacman.y - fy;
      if Abs(dx) < TILE as real && Abs(dy) < TILE as real {
        tally := tally.(score := tally.score + FRUIT_POINTS[b.typeIndex]);
        fruits := fruits.(fruit := Some(b.(eaten := true)));
        fruits := fruits.(fruit := None);
      }
    }

    /** The contact loop as a stage of the frame. */
    method ContactGhosts() returns (killed: bool)
      requires Distinct()
      modifies this, ghosts
      ensures Snapshot() == ContactStage(old(Snapshot())) && killed == Killed(old(Snapshot()))
      ensures Context() == old(Context())
    {
      killed := Collide();
    }

    /** The contact loop of `updatePlaying`: whether a ghost killed Pac-Man. The
        score, combo and freeze timer the loop updates are carried through it as one
        Contact and stored when it ends. */
    method Collide() returns (killed: bool)
      requires Distinct()
      modifies this, ghosts
      ensures var r := Contacts(Contact(old(tally), old(freezeTimer), false), Position(pacman.x, pacman.y), old(States(ghosts)));
        Contact(tally, freezeTimer, killed) == r.0 && States(ghosts) == r.1
      ensures Fields() == old(Fields()).(tally := tally, freezeTimer := freezeTimer)
      ensures Configs(ghosts) == old(Configs(ghosts))
    {
      ghost var gs0 := States(ghosts);
      ghost var cfgs := Configs(ghosts);
      var c := ContactLoop(gs0, cfgs, Contact(tally, freezeTimer, false));
      tally := c.tally;
      freezeTimer := c.freeze;
      killed := c.killed;
      assert States(ghosts) == Contacts(Contact(old(tally), old(freezeTimer), false), Position(pacman.x, pacman.y), gs0).1;
      assert Configs(ghosts) == cfgs;
    }

    /** The loop itself, ghost by ghost, from the snapshots `gs0` and the
        configurations `cfgs` of the ghosts it starts from. */
    method ContactLoop(ghost gs0: seq<GhostState>, ghost cfgs: seq<GhostConfig>, c0: Contact) returns (c: Contact)
      requires Distinct() && gs0 == States(ghosts) && cfgs == Configs(ghosts)
      modifies ghosts
      ensures var r := Contacts(c0, Position(pacman.x, pacman.y), gs0);
        && c == r.0
        && forall j :: 0 <= j < |ghosts| ==> ghosts[j].State() == r.1[j] && ghosts[j].cfg == cfgs[j]
    {
      ghost var pac := Position(pacman.x, pacman.y);
      ghost var done: seq<GhostState> := [];
      c := c0;
      for i := 0 to |ghosts|
        invariant ContactsSoFar(c0, pac, gs0, cfgs, i, c, done)
      {
        c, done := ContactNext(i, c, c0, pac, gs0, cfgs, done);
      }
      assert gs0[..|ghosts|] == gs0;
    }

    /** The contact loop after its first `i` ghosts: `c` and the states `done` of
        those ghosts are what Contacts gives on them, and the others are untouched. */
    ghost predicate ContactsSoFar(c0: Contact, pac: Position, gs0: seq<GhostState>, cfgs: seq<GhostConfig>,
                                  i: int, c: Contact, done: seq<GhostState>)
      reads ghosts
    {
      && 0 <= i <= |gs0| == |ghosts| == |cfgs|
      && (c, done) == Contacts(c0, pac, gs0[..i]) && |done| == i
      && (forall j :: 0 <= j < i ==> ghosts[j].State() == done[j])
      && (forall j :: i <= j < |ghosts| ==> ghosts[j].State() == gs0[j])
      && (forall j :: 0 <= j < |ghosts| ==> ghosts[j].cfg == cfgs[j])
    }

    /** One turn of the contact loop. */
    method ContactNext(i: int, c: Contact, ghost c0: Contact, ghost pac: Position, ghost gs0: seq<GhostState>,
                       ghost cfgs: seq<GhostConfig>, ghost done: seq<GhostState>)
      returns (c': Contact, ghost done': seq<GhostState>)
      requires Distinct() && 0 <= i < |ghosts| && pac == Position(pacman.x, pacman.y)
      requires ContactsSoFar(c0, pac, gs0, cfgs, i, c, done)
      modifies ghosts
      ensures ContactsSoFar(c0, pac, gs0, cfgs, i + 1, c', done')
    {
      ContactsNext(c0, pac, gs0, i);
      c' := TouchAt(i, c);
      done' := done + [ghosts[i].State()];
    }

    /** The `i`th ghost of the contact loop; the other ghosts are left as they are. */
    method TouchAt(i: int, c: Contact) returns (r: Contact)
      requires Distinct() && 0 <= i < |ghosts|
      modifies ghosts[i]
      ensures (r, ghosts[i].State()) == ContactStep(c, Position(pacman.x, pacman.y), old(ghosts[i].State()))
      ensures forall j :: 0 <= j < |ghosts| ==> ghosts[j].cfg == old(ghosts[j].cfg)
      ensures forall j :: 0 <= j < |ghosts| && j != i ==> ghosts[j].State() == old(ghosts[j].State())
    {
      r := Touch(ghosts[i], c);
    }

    /** One ghost of the contact loop: a released ghost within 0.7 of a tile is
        eaten when frightened, for 200 * 2^combo and a freeze, and otherwise kills
        Pac-Man unless it is already eaten. */
    method Touch(g: Ghost, c: Contact) returns (r: Contact)
      modifies g
      ensures (r, g.State()) == ContactStep(c, Position(pacman.x, pacman.y), old(g.State()))
      ensures g.cfg == old(g.cfg)
    {
      r := c;
      if !g.released {
        return;
      }
      var dx := pacman.x - g.x;
      var dy := pacman.y - g.y;
      if dx * dx + dy * dy < (TILE as real * 0.7) * (TILE as real * 0.7) {
        if g.clock.mode == Frightened {
          var points := GhostPoints(r.tally.ghostCombo);
          g.Eat();
          r := r.(tally := r.tally.(ghostCombo := r.tally.ghostCombo + 1));
          r := r.(tally := r.tally.(score := r.tally.score + points));
          r := r.(freeze := GHOST_EAT_FREEZE);
        } else if g.clock.mode != Eaten {
          r := r.(killed := true);
        }
      }
    }

    /** `pacmanDie`. */
    method PacmanDie()
      modifies this, pacman
      ensures Snapshot() == Die(old(Snapshot())) && Context() == old(Context())
    {
      pacman.alive := false;
      phase := Dead;
      phaseTimer := 0.0;
    }

    /** The end of `updatePlaying` once Pac-Man survived the contacts: the extra life
        and the level clear. */
    method EndOfFrame()
      requires Valid()
      modifies this
      ensures Valid()
      ensures Snapshot() == Finish(old(Snapshot()))
    {
      if !tally.extraLifeAwarded && tally.score >= EXTRA_LIFE_AT {
        tally := tally.(lives := tally.lives + 1, extraLifeAwarded := true);
      }
      if tileMap.dotsRemaining <= 0 {
        phase := LevelClear;
        phaseTimer := 0.0;
        fruits := fruits.(fruit := None);
      }
    }

    /** The frame of play up to the dot: the gate key, Pac-Man, the ghosts and the
        gate clock. */
    method Advance(dt: real, waves: seq<real>)
      requires Valid() && Shaped(tileMap.tiles) && |waves| == |ghosts|
      modifies tileMap, pacman, ghosts, input
      ensures Valid()
      ensures Snapshot() == MoveStage(old(Context()), old(Snapshot()), dt, waves) && Context() == old(Context())
    {
      ToggleGateInput();
      StepPacman(dt);
      StepGhosts(dt, waves);
      StepGate(dt);
    }

    /** The frame of play from the dot on: the dot, the fruit, the contacts, then
        `pacmanDie` or the end of the frame. */
    method Resolve(dt: real)
      requires Valid() && Shaped(tileMap.tiles)
      modifies this, tileMap, pacman, ghosts
      ensures Valid()
      ensures Snapshot() == AfterContacts(FruitStage(EatStage(old(Snapshot())), dt)) && Context() == old(Context())
    {
      EatAtPacman();
      UpdateFruit(dt);
      Settle();
    }

    /** The contacts, then `pacmanDie` or the end of the frame, as AfterContacts says. */
    method Settle()
      requires Valid()
      modifies this, pacman, ghosts
      ensures Valid()
      ensures Snapshot() == AfterContacts(old(Snapshot())) && Context() == old(Context())
    {
      var killed := ContactGhosts();
      if killed {
        PacmanDie();
      } else {
        EndOfFrame();
      }
    }

    /** A frame of play past the freeze, pause and restart checks. */
    method PlayFrame(dt: real, waves: seq<real>)
      requires Valid() && Shaped(tileMap.tiles) && |waves| == |ghosts|
      modifies this, tileMap, pacman, ghosts, input
      ensures Valid()
      ensures Playable(old(Context()), old(Snapshot()), waves)
      ensures Snapshot() == Play(old(Context()), old(Snapshot()), dt, waves) && Context() == old(Context())
    {
      Advance(dt, waves);
      Resolve(dt);
    }

    /** `startGame`: the game's fields reset as Restart says, then `loadLevel(1)`,
        then READY; `loaded` is false where `loadLevel` would throw. */
    method StartGame() returns (loaded: bool)
      requires Valid()
      modifies this, tileMap, pacman, ghosts
      ensures Valid()
      ensures Fields() == Restart(old(Fields()), BoardForLevel(levels.boards, 1))
      ensures loaded <==> BoardForLevel(levels.boards, 1).Some?
      ensures loaded ==> LevelStart(BoardForLevel(levels.boards, 1).value)
      ensures !loaded ==> Snapshot() == old(Snapshot()).(session := Fields()) && Context() == old(Context())
    {
      tally := Tally(0, 3, tally.ghostCombo, false);
      level := 1;
      fruits := fruits.(dotsEaten := 0, spawnCount := 0, fruit := None);
      freezeTimer := 0.0;
      loaded := EnterLevel(1);
    }

    /** `loadLevel(n)` followed by READY with the phase timer at 0, as `startGame` and
        `updateLevelClear` both do. */
    method EnterLevel(n: int) returns (loaded: bool)
      requires Valid()
      modifies this, tileMap, pacman, ghosts
      ensures Valid()
      ensures loaded <==> BoardForLevel(levels.boards, n).Some?
      ensures loaded ==> LevelStart(BoardForLevel(levels.boards, n).value)
      ensures loaded ==> Fields() == old(Fields()).(phase := Ready, phaseTimer := 0.0,
        fruits := old(fruits).(spawn := BoardForLevel(levels.boards, n).value.fruitSpawn))
      ensures !loaded ==> Snapshot() == old(Snapshot()) && Context() == old(Context())
    {
      loaded := LoadLevel(n);
      if loaded {
        phase := Ready;
        phaseTimer := 0.0;
      }
    }

    /** `updateReady`: the phase timer runs, and play starts once it reaches 2000. */
    method UpdateReady(dt: real)
      modifies this
      ensures phaseTimer == old(phaseTimer) + dt * 1000.0
      ensures phase == if phaseTimer >= READY_DURATION then Playing else old(phase)
      ensures Fields() == old(Fields()).(phase := phase, phaseTimer := phaseTimer)
    {
      phaseTimer := phaseTimer + dt * 1000.0;
      if phaseTimer >= READY_DURATION {
        phase := Playing;
      }
    }

    /** `updatePlaying`: during a freeze only the freeze timer runs; otherwise a
        pending pause pauses the game, a pending restart starts a new game, and
        anything else plays one frame. */
    method UpdatePlaying(dt: real, waves: seq<real>)
      requires Valid() && Shaped(tileMap.tiles) && |waves| == |ghosts|
      modifies this, tileMap, pacman, ghosts, input
      ensures Valid()
      ensures old(freezeTimer) > 0.0 ==>
        Snapshot() == Frozen(old(Snapshot()), dt) && Context() == old(Context())
      ensures old(freezeTimer) <= 0.0 && old(input.flags.pause) ==>
        Snapshot() == PauseGame(old(Snapshot())) && Context() == old(Context())
      ensures old(freezeTimer) <= 0.0 && !old(input.flags.pause) && old(input.flags.restart) ==>
        && Fields() == Restart(old(Fields()), BoardForLevel(levels.boards, 1))
        && input.State() == old(input.State()).(flags := old(input.flags).(restart := false))
        && (BoardForLevel(levels.boards, 1).Some? ==> LevelStart(BoardForLevel(levels.boards, 1).value))
      ensures old(freezeTimer) <= 0.0 && !old(input.flags.pause) && !old(input.flags.restart) ==>
        && Playable(old(Context()), old(Snapshot()), waves)
        && Snapshot() == Play(old(Context()), old(Snapshot()), dt, waves) && Context() == old(Context())
    {
      if freezeTimer > 0.0 {
        freezeTimer := freezeTimer - dt * 1000.0;
        return;
      }
      var paused := PauseIfPending();
      if paused {
        return;
      }
      var restarted := RestartIfPending();
      if restarted {
        return;
      }
      PlayFrame(dt, waves);
    }

    /** `if (this.input.consumePause()) this.phase = GamePhase.PAUSED`. */
    method PauseIfPending() returns (paused: bool)
      modifies this, input
      ensures paused == old(input.flags.pause)
      ensures paused ==> Snapshot() == PauseGame(old(Snapshot()))
      ensures !paused ==> Snapshot() == old(Snapshot())
      ensures Context() == old(Context()) && input.Valid() == old(input.Valid())
    {
      paused := input.ConsumePause();
      if paused {
        phase := Paused;
      }
    }

    /** `if (this.input.consumeRestart()) this.startGame()`. */
    method RestartIfPending() returns (restarted: bool)
      requires Valid()
      modifies this, tileMap, pacman, ghosts, input
      ensures Valid()
      ensures restarted == old(input.flags.restart)
      ensures restarted ==>
        && Fields() == Restart(old(Fields()), BoardForLevel(levels.boards, 1))
        && input.State() == old(input.State()).(flags := old(input.flags).(restart := false))
        && (BoardForLevel(levels.boards, 1).Some? ==> LevelStart(BoardForLevel(levels.boards, 1).value))
      ensures !restarted ==> Snapshot() == old(Snapshot()) && Context() == old(Context())
    {
      restarted := input.ConsumeRestart();
      if restarted {
        var loaded := StartGame();
      }
    }

    /** `updateDead`, as DeadFrame says. */
    method UpdateDead(dt: real)
      requires Valid() && Shaped(tileMap.tiles)
      modifies this, pacman, ghosts, input
      ensures Valid()
      ensures Snapshot() == DeadFrame(old(Context()), old(Snapshot()), dt) && Context() == old(Context())
    {
      TickDeath(dt);
      if phaseTimer >= DEAD_DURATION {
        LoseLife();
      }
    }

    /** The part of `updateDead` every frame runs, as DeathTick says. */
    method TickDeath(dt: real)
      requires Valid() && Shaped(tileMap.tiles)
      modifies this, pacman
      ensures Valid()
      ensures Snapshot() == DeathTick(old(Context()), old(Snapshot()), dt) && Context() == old(Context())
    {
      phaseTimer := phaseTimer + dt * 1000.0;
      pacman.Update(dt, tileMap);
    }

    /** The branch of `updateDead` once the timer has reached 1500. */
    method LoseLife()
      requires Valid() && phaseTimer >= DEAD_DURATION
      modifies this, pacman, ghosts, input
      ensures Valid()
      ensures Snapshot() == LifeLost(old(Context()), old(Snapshot())) && Context() == old(Context())
    {
      tally := tally.(lives := tally.lives - 1);
      if tally.lives <= 0 {
        EndGame();
      } else {
        NextTry();
      }
    }

    /** The last life is gone: name entry when the score ranks, game over otherwise. */
    method EndGame()
      requires Valid()
      modifies this, input
      ensures Valid()
      ensures Snapshot() == if IsHighScore(old(highScores), old(tally.score))
        then old(Snapshot()).(session := old(Fields()).(phase := EnterName),
                              input := old(input.State()).(text := NamePrompt(true, "", false)))
        else old(Snapshot()).(session := old(Fields()).(phase := GameOver))
      ensures Context() == old(Context())
    {
      if IsHighScore(highScores, tally.score) {
        phase := EnterName;
        input.StartTextInput();
      } else {
        phase := GameOver;
      }
    }

    /** Lives are left: every actor back at its spawn and the game READY again. */
    method NextTry()
      requires Valid()
      modifies this, pacman, ghosts
      ensures Valid()
      ensures Snapshot() == old(Snapshot()).(session := old(Fields()).(phase := Ready, phaseTimer := 0.0),
                                             pac := Respawned(old(Context()).spawn),
                                             ghosts := ResetAll(old(Context()).cfgs, old(States(ghosts))))
      ensures Context() == old(Context())
    {
      Respawn();
      phase := Ready;
      phaseTimer := 0.0;
    }

    /** The reset of every actor after a lost life, as a stage of the frame. */
    method Respawn()
      requires Distinct()
      modifies pacman, ghosts
      ensures pacman.State() == Respawned(Context().spawn)
      ensures States(ghosts) == ResetAll(Configs(ghosts), old(States(ghosts)))
      ensures Context() == old(Context())
    {
      ghost var cfgs := Configs(ghosts);
      ResetActors();
      assert Configs(ghosts) == cfgs;
    }

    /** `updateLevelClear`: the phase timer runs; once it reaches 2000 the next
        level starts, with no dot eaten and no fruit, from its own board, and the
        game is READY again. */
    method UpdateLevelClear(dt: real)
      requires Valid()
      modifies this, tileMap, pacman, ghosts
      ensures Valid()
      ensures old(phaseTimer) + dt * 1000.0 < LEVEL_CLEAR_DURATION ==>
        Snapshot() == old(Snapshot()).(session := old(Fields()).(phaseTimer := old(phaseTimer) + dt * 1000.0))
        && Context() == old(Context())
      ensures old(phaseTimer) + dt * 1000.0 >= LEVEL_CLEAR_DURATION ==>
        && level == old(level) + 1 && tally == old(tally) && highScores == old(highScores)
        && fruits.dotsEaten == 0 && fruits.spawnCount == 0 && fruits.fruit.None?
        && (BoardForLevel(levels.boards, level).Some? ==>
              && LevelStart(BoardForLevel(levels.boards, level).value)
              && fruits.spawn == BoardForLevel(levels.boards, level).value.fruitSpawn
              && phase == Ready && phaseTimer == 0.0)
    {
      phaseTimer := phaseTimer + dt * 1000.0;
      if phaseTimer >= LEVEL_CLEAR_DURATION {
        level := level + 1;
        fruits := fruits.(dotsEaten := 0, spawnCount := 0, fruit := None);
        var loaded := EnterLevel(level);
      }
    }

    /** `updateEnterName`: once a name is submitted, the entry for it and the score
        goes into the table, the banner shows for 3000 ms when the score beats the
        old best, name entry closes and the game is over. */
    method UpdateEnterName()
      requires Valid()
      modifies this, input
      ensures Valid()
      ensures !old(input.text.submitted) ==> Fields() == old(Fields()) && input.State() == old(input.State())
      ensures old(input.text.submitted) ==>
        && highScores == Entered(old(highScores), old(input.text.buffer), old(tally.score))
        && newHighScoreBanner == (if IsTopScore(old(highScores), old(tally.score)) then 3000.0 else old(newHighScoreBanner))
        && Fields() == old(Fields()).(phase := GameOver, highScores := highScores, banner := newHighScoreBanner)
        && input.State() == old(input.State()).(text := old(input.text).(open := false, submitted := false))
    {
      if input.text.submitted {
        SubmitName();
      }
    }

    /** The body of `updateEnterName` once the name is submitted. */
    method SubmitName()
      requires Valid()
      modifies this, input
      ensures Valid()
      ensures highScores == Entered(old(highScores), old(input.text.buffer), old(tally.score))
      ensures newHighScoreBanner == (if IsTopScore(old(highScores), old(tally.score)) then 3000.0 else old(newHighScoreBanner))
      ensures Fields() == old(Fields()).(phase := GameOver, highScores := highScores, banner := newHighScoreBanner)
      ensures input.State() == old(input.State()).(text := old(input.text).(open := false, submitted := false))
    {
      var name := EntryName(input.text.buffer);
      input.StopTextInput();
      RecordEntry(HighScoreEntry(name, tally.score));
    }

    /** The entry goes into the table, the banner shows when its score beats the
        old best, and the game is over. */
    method RecordEntry(e: HighScoreEntry)
      modifies this
      ensures Fields() == old(Fields()).(phase := GameOver, highScores := Submit(old(highScores), e),
                                         banner := if IsTopScore(old(highScores), e.score) then 3000.0
                                                   else old(newHighScoreBanner))
    {
      var isTop := IsTopScore(highScores, e.score);
      AddHighScore(e);
      if isTop {
        newHighScoreBanner := 3000.0;
      }
      phase := GameOver;
    }

    /** Push, sort by descending score, and cut the table to its first five. */
    method AddHighScore(e: HighScoreEntry)
      modifies this
      ensures highScores == Submit(old(highScores), e)
      ensures Fields() == old(Fields()).(highScores := highScores)
    {
      highScores := highScores + [e];
      highScores := SortDesc(highScores);
      if |highScores| > HIGH_SCORE_MAX {
        highScores := highScores[..HIGH_SCORE_MAX];
      }
    }
  }
}
