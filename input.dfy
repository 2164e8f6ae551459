/** The keyboard handler: a key press either edits the level-select prompt, edits
    the name being entered, or, in normal play, buffers a direction or raises a
    one-shot flag that the game reads and clears. */
module Input {
  import opened Types

  /** The one-shot flags normal play raises and the game consumes. */
  datatype Flags = Flags(pause: bool, restart: bool, mute: bool, gate: bool, enter: bool, levelSelect: bool)

  /** The level-select prompt: whether it is open, the digits typed, and its two
      outcomes. */
  datatype LevelPrompt = LevelPrompt(open: bool, buffer: string, submitted: bool, cancelled: bool)

  /** Name entry for the high-score table: whether it is open, the name typed, and
      whether it was submitted. */
  datatype NamePrompt = NamePrompt(open: bool, buffer: string, submitted: bool)

  /** The fields of an InputHandler, grouped as the source's comments group them. */
  datatype InputState = InputState(currentDir: Direction, bufferedDir: Direction, flags: Flags,
                                   levelSelect: LevelPrompt, text: NamePrompt)

  const NO_FLAGS: Flags := Flags(false, false, false, false, false, false)
  const INITIAL_INPUT: InputState :=
    InputState(NoDir, NoDir, NO_FLAGS, LevelPrompt(false, "", false, false), NamePrompt(false, "", false))

  const LEVEL_DIGITS_MAX: nat := 3
  const NAME_MAX: nat := 10

  // ---- keys ------------------------------------------------------------------------------

  /** A character JavaScript stores as one UTF-16 code unit: one of the Basic
      Multilingual Plane. A character beyond it is two units long. */
  type UnitChar = c: char | c <= '\U{FFFF}' witness 'a'

  /** The length JavaScript gives a string: its count of UTF-16 code units. */
  function Utf16Length(t: string): (n: nat)
    ensures n >= |t|
    ensures n == 1 <==> |t| == 1 && t[0] <= '\U{FFFF}'
  {
    if t == [] then 0 else (if t[0] <= '\U{FFFF}' then 1 else 2) + Utf16Length(t[1..])
  }

  /** A key press, as the handler tells keys apart: a key of length one (a single
      code unit), one of the named keys it tests for, or any other key ("Shift",
      "F1", "Tab", or a character outside the Basic Multilingual Plane, whose
      length is two). */
  datatype Key = Char(c: UnitChar) | Enter | Escape | Backspace | ArrowUp | ArrowDown | ArrowLeft | ArrowRight
               | OtherNamed

  /** KeyboardEvent.key values: a single character, or a key name of more than one
      character starting with a capital letter. */
  predicate KeyName(t: string)
  {
    |t| == 1 || (|t| > 1 && 'A' <= t[0] <= 'Z')
  }

  /** The string the browser reports for a key other than `OtherNamed`. */
  function KeyString(k: Key): (t: string)
    requires !k.OtherNamed?
    ensures KeyName(t)
  {
    match k
    case Char(c) => [c]
    case Enter => "Enter"
    case Escape => "Escape"
    case Backspace => "Backspace"
    case ArrowUp => "ArrowUp"
    case ArrowDown => "ArrowDown"
    case ArrowLeft => "ArrowLeft"
    case ArrowRight => "ArrowRight"
  }

  /** How the handler's tests on `e.key` sort a KeyboardEvent.key string: a string
      whose JavaScript length is one is a character key. */
  function Classify(t: string): (k: Key)
    ensures Utf16Length(t) == 1 ==> k == Char(t[0])
    ensures Utf16Length(t) != 1 ==> !k.Char?
  {
    if |t| == 1 && t[0] <= '\U{FFFF}' then Char(t[0])
    else if t == "Enter" then Enter
    else if t == "Escape" then Escape
    else if t == "Backspace" then Backspace
    else if t == "ArrowUp" then ArrowUp
    else if t == "ArrowDown" then ArrowDown
    else if t == "ArrowLeft" then ArrowLeft
    else if t == "ArrowRight" then ArrowRight
    else OtherNamed
  }

  /** Classifying the string of a key gives the key back. */
  lemma ClassifyKeyString(k: Key)
    requires !k.OtherNamed?
    ensures Classify(KeyString(k)) == k
  {
  }

  /** JavaScript's `a <= b` on strings: lexicographic by character, a proper prefix
      coming first. */
  predicate StrLE(a: string, b: string)
  {
    |a| == 0 || (|b| > 0 && (a[0] < b[0] || (a[0] == b[0] && StrLE(a[1..], b[1..]))))
  }

  /** The level-select prompt's digit test, `key >= '0' && key <= '9'`, on strings. */
  predicate DigitKey(t: string)
  {
    StrLE("0", t) && StrLE(t, "9")
  }

  /** On key strings the string comparison accepts exactly the ten digit characters
      (on arbitrary strings it would also accept "10" or "0x"), so it is the test
      `Char(c)` with `'0' <= c <= '9'` on the classified key. */
  lemma {:induction false} DigitKeyMeaning(t: string)
    requires KeyName(t)
    ensures DigitKey(t) <==> |t| == 1 && '0' <= t[0] <= '9'
    ensures DigitKey(t) <==> Classify(t).Char? && '0' <= Classify(t).c <= '9'
  {
    assert StrLE("0", t) <==> '0' <= t[0] by {
      assert StrLE("0"[1..], t[1..]);
    }
    assert StrLE(t, "9") <==> t[0] < '9' || (t[0] == '9' && |t| == 1) by {
      assert StrLE(t[1..], "9"[1..]) <==> |t[1..]| == 0;
    }
  }

  /** The direction a key names in normal play: the arrows and WASD. */
  function KeyDirection(k: Key): (d: Option<Direction>)
    ensures d.Some? ==> d.value != NoDir
    ensures d.Some? <==> k in {ArrowUp, Char('w'), Char('W'), ArrowDown, Char('s'), Char('S'),
                               ArrowLeft, Char('a'), Char('A'), ArrowRight, Char('d'), Char('D')}
  {
    match k
    case ArrowUp => Some(Up)
    case ArrowDown => Some(Down)
    case ArrowLeft => Some(Left)
    case ArrowRight => Some(Right)
    case Char(c) =>
      if c == 'w' || c == 'W' then Some(Up)
      else if c == 's' || c == 'S' then Some(Down)
      else if c == 'a' || c == 'A' then Some(Left)
      else if c == 'd' || c == 'D' then Some(Right)
      else None
    case _ => None
  }

  /** `slice(0, -1)`: all but the last character; the empty string stays empty. */
  function DropLast(t: string): (r: string)
    ensures |t| == 0 ==> r == t
    ensures |t| > 0 ==> |r| == |t| - 1 && r + [t[|t| - 1]] == t
  {
    if |t| == 0 then t else t[..|t| - 1]
  }

  /** Whether a key is one of the two characters `lower`/`upper`. */
  predicate IsLetter(k: Key, lower: UnitChar, upper: UnitChar)
  {
    k == Char(lower) || k == Char(upper)
  }

  // ---- one key press ---------------------------------------------------------------------

  predicate AllDigits(t: string)
  {
    forall i :: 0 <= i < |t| ==> '0' <= t[i] <= '9'
  }

  /** A key while the level-select prompt is open: Enter submits, Escape or x
      cancels, Backspace deletes a digit, and a digit is appended while there are
      fewer than three. */
  function LevelSelectKey(p: LevelPrompt, k: Key): (r: LevelPrompt)
    ensures r.open == p.open
    ensures r.submitted <==> p.submitted || k == Enter
    ensures r.cancelled <==> p.cancelled || k in {Escape, Char('x'), Char('X')}
    ensures |p.buffer| <= LEVEL_DIGITS_MAX && AllDigits(p.buffer)
            ==> |r.buffer| <= LEVEL_DIGITS_MAX && AllDigits(r.buffer)
  {
    if k == Enter then p.(submitted := true)
    else if k == Escape || IsLetter(k, 'x', 'X') then p.(cancelled := true)
    else if k == Backspace then p.(buffer := DropLast(p.buffer))
    else if k.Char? && '0' <= k.c <= '9' && |p.buffer| < LEVEL_DIGITS_MAX then p.(buffer := p.buffer + [k.c])
    else p
  }

  /** A key while a name is being entered: Enter submits, Backspace deletes, and any
      single character is appended while the name is shorter than ten. */
  function NameKey(p: NamePrompt, k: Key): (r: NamePrompt)
    ensures r.open == p.open
    ensures r.submitted <==> p.submitted || k == Enter
    ensures |p.buffer| <= NAME_MAX ==> |r.buffer| <= NAME_MAX
  {
    if k == Enter then p.(submitted := true)
    else if k == Backspace then p.(buffer := DropLast(p.buffer))
    else if k.Char? && |p.buffer| < NAME_MAX then p.(buffer := p.buffer + [k.c])
    else p
  }

  /** The flag a key raises in normal play: p pause, r restart, m mute, g gate,
      x level select, Enter and Space enter. No flag is lowered. */
  function FlagKey(f: Flags, k: Key): (r: Flags)
    ensures r.pause <==> f.pause || IsLetter(k, 'p', 'P')
    ensures r.restart <==> f.restart || IsLetter(k, 'r', 'R')
    ensures r.mute <==> f.mute || IsLetter(k, 'm', 'M')
    ensures r.gate <==> f.gate || IsLetter(k, 'g', 'G')
    ensures r.levelSelect <==> f.levelSelect || IsLetter(k, 'x', 'X')
    ensures r.enter <==> f.enter || k in {Enter, Char(' ')}
  {
    if IsLetter(k, 'p', 'P') then f.(pause := true)
    else if IsLetter(k, 'r', 'R') then f.(restart := true)
    else if IsLetter(k, 'm', 'M') then f.(mute := true)
    else if IsLetter(k, 'g', 'G') then f.(gate := true)
    else if IsLetter(k, 'x', 'X') then f.(levelSelect := true)
    else if k == Enter || k == Char(' ') then f.(enter := true)
    else f
  }

  /** A key in normal play: a direction key buffers its direction, any other key
      goes to `FlagKey`. */
  function PlayKey(s: InputState, k: Key): (r: InputState)
    ensures r == s.(bufferedDir := r.bufferedDir, flags := r.flags)
  {
    if KeyDirection(k).Some? then s.(bufferedDir := KeyDirection(k).value)
    else s.(flags := FlagKey(s.flags, k))
  }

  /** `onKey(e)`: the state after one key press. The level-select prompt comes
      first, then name entry, then normal play. The source's string tests appear on
      the classified key: `key.length === 1` as `Char(c)` (see `Utf16Length`), the digit comparison as
      `'0' <= c <= '9'` (see `Classify` and `DigitKeyMeaning`). */
  function KeyPressed(s: InputState, k: Key): InputState
  {
    if s.levelSelect.open then s.(levelSelect := LevelSelectKey(s.levelSelect, k))
    else if s.text.open then s.(text := NameKey(s.text, k))
    else PlayKey(s, k)
  }

  /** The buffers' bounds: at most three digits at the level prompt, at most ten
      characters in a name. */
  predicate Bounded(s: InputState)
  {
    |s.levelSelect.buffer| <= LEVEL_DIGITS_MAX && AllDigits(s.levelSelect.buffer) && |s.text.buffer| <= NAME_MAX
  }

  /** Every key press keeps the buffers bounded. */
  lemma KeyPressedKeepsBounded(s: InputState, k: Key)
    requires Bounded(s)
    ensures Bounded(KeyPressed(s, k))
  {
  }

  /** The level-select prompt takes precedence over everything else: while it is
      open, a key touches only the prompt, which stays open; Enter submits it,
      Escape and x cancel it, and a raised outcome stays raised. */
  lemma LevelSelectTakesPrecedence(s: InputState, k: Key)
    requires s.levelSelect.open
    ensures var r := KeyPressed(s, k);
      && r == s.(levelSelect := r.levelSelect)
      && r.levelSelect.open
      && (r.levelSelect.submitted <==> s.levelSelect.submitted || k == Enter)
      && (r.levelSelect.cancelled <==> s.levelSelect.cancelled || k in {Escape, Char('x'), Char('X')})
  {
  }

  /** Name entry comes next: with the prompt closed and name entry open, a key
      touches only the name and its submitted flag, and Enter submits it. */
  lemma TextModeTakesPrecedence(s: InputState, k: Key)
    requires !s.levelSelect.open && s.text.open
    ensures var r := KeyPressed(s, k);
      && r == s.(text := r.text)
      && r.text.open
      && (r.text.submitted <==> s.text.submitted || k == Enter)
  {
  }

  /** In normal play the buffered direction is exactly the one the key names, or the
      old one; each flag is raised by its own keys and no flag is ever lowered;
      nothing else changes. */
  lemma {:induction false} NormalPlayKeys(s: InputState, k: Key)
    requires !s.levelSelect.open && !s.text.open
    ensures var r := KeyPressed(s, k);
      && r == s.(bufferedDir := r.bufferedDir, flags := r.flags)
      && r.bufferedDir == (if KeyDirection(k).Some? then KeyDirection(k).value else s.bufferedDir)
      && (r.flags.pause <==> s.flags.pause || IsLetter(k, 'p', 'P'))
      && (r.flags.restart <==> s.flags.restart || IsLetter(k, 'r', 'R'))
      && (r.flags.mute <==> s.flags.mute || IsLetter(k, 'm', 'M'))
      && (r.flags.gate <==> s.flags.gate || IsLetter(k, 'g', 'G'))
      && (r.flags.levelSelect <==> s.flags.levelSelect || IsLetter(k, 'x', 'X'))
      && (r.flags.enter <==> s.flags.enter || k in {Enter, Char(' ')})
  {
    if KeyDirection(k).Some? {
      assert !IsLetter(k, 'p', 'P') && !IsLetter(k, 'r', 'R') && !IsLetter(k, 'm', 'M');
      assert !IsLetter(k, 'g', 'G') && !IsLetter(k, 'x', 'X') && k !in {Enter, Char(' ')};
    }
  }

  /** Typing a character and then Backspace gives back the name as it was, while
      there is room for the character. */
  lemma {:induction false} TypeThenBackspace(s: InputState, c: UnitChar)
    requires !s.levelSelect.open && s.text.open && |s.text.buffer| < NAME_MAX
    ensures KeyPressed(KeyPressed(s, Char(c)), Backspace) == s
  {
    var p := s.text;
    var p1 := NameKey(p, Char(c));
    assert p1 == p.(buffer := p.buffer + [c]);
    assert KeyPressed(s, Char(c)) == s.(text := p1);
    var p2 := NameKey(p1, Backspace);
    assert p2 == p1.(buffer := DropLast(p1.buffer));
    assert DropLast(p1.buffer) == p.buffer;
    assert KeyPressed(s.(text := p1), Backspace) == s.(text := p2);
  }

  /** The same at the level prompt for a digit, while it has fewer than three. */
  lemma {:induction false} DigitThenBackspace(s: InputState, c: UnitChar)
    requires s.levelSelect.open && |s.levelSelect.buffer| < LEVEL_DIGITS_MAX && '0' <= c <= '9'
    ensures KeyPressed(KeyPressed(s, Char(c)), Backspace) == s
  {
    var p := s.levelSelect;
    var p1 := LevelSelectKey(p, Char(c));
    assert p1 == p.(buffer := p.buffer + [c]);
    assert KeyPressed(s, Char(c)) == s.(levelSelect := p1);
    var p2 := LevelSelectKey(p1, Backspace);
    assert p2 == p1.(buffer := DropLast(p1.buffer));
    assert DropLast(p1.buffer) == p.buffer;
    assert KeyPressed(s.(levelSelect := p1), Backspace) == s.(levelSelect := p2);
  }

  // ---- the handler object ----------------------------------------------------------------

  /** The fields are grouped into the one-shot flags and the two prompts; each
      method below changes the fields of the source method it models. */
  class InputHandler {
    var currentDir: Direction
    var bufferedDir: Direction
    var flags: Flags
    var levelSelect: LevelPrompt
    var text: NamePrompt

    function State(): InputState
      reads this
    {
      InputState(currentDir, bufferedDir, flags, levelSelect, text)
    }

    predicate Valid()
      reads this
    {
      Bounded(State())
    }

    /** No direction, no flag, both prompts closed and empty. */
    constructor()
      ensures State() == INITIAL_INPUT && Valid()
    {
      currentDir := NoDir;
      bufferedDir := NoDir;
      flags := NO_FLAGS;
      levelSelect := LevelPrompt(false, "", false, false);
      text := NamePrompt(false, "", false);
    }

    /** `onKey(e)` for the key `k`. */
    method OnKey(k: Key)
      requires Valid()
      modifies this
      ensures State() == KeyPressed(old(State()), k)
      ensures Valid()
    {
      KeyPressedKeepsBounded(State(), k);
      if levelSelect.open {
        LevelSelectInput(k);
      } else if text.open {
        NameInput(k);
      } else {
        PlayInput(k);
      }
    }

    /** The level-select branch of `onKey`. */
    method LevelSelectInput(k: Key)
      modifies this
      ensures State() == old(State()).(levelSelect := LevelSelectKey(old(levelSelect), k))
    {
      if k == Enter {
        levelSelect := levelSelect.(submitted := true);
      } else if k == Escape || k == Char('x') || k == Char('X') {
        levelSelect := levelSelect.(cancelled := true);
      } else if k == Backspace {
        levelSelect := levelSelect.(buffer := DropLast(levelSelect.buffer));
      } else if k.Char? && '0' <= k.c <= '9' && |levelSelect.buffer| < LEVEL_DIGITS_MAX {
        levelSelect := levelSelect.(buffer := levelSelect.buffer + [k.c]);
      }
    }

    /** The name-entry branch of `onKey`. */
    method NameInput(k: Key)
      modifies this
      ensures State() == old(State()).(text := NameKey(old(text), k))
    {
      if k == Enter {
        text := text.(submitted := true);
      } else if k == Backspace {
        text := text.(buffer := DropLast(text.buffer));
      } else if k.Char? && |text.buffer| < NAME_MAX {
        text := text.(buffer := text.buffer + [k.c]);
      }
    }

    /** The `switch` of `onKey`, in normal play. */
    method PlayInput(k: Key)
      modifies this
      ensures State() == PlayKey(old(State()), k)
    {
      match k {
        case ArrowUp => bufferedDir := Up;
        case ArrowDown => bufferedDir := Down;
        case ArrowLeft => bufferedDir := Left;
        case ArrowRight => bufferedDir := Right;
        case Enter => flags := flags.(enter := true);
        case Char(c) =>
          if c == 'w' || c == 'W' {
            bufferedDir := Up;
          } else if c == 's' || c == 'S' {
            bufferedDir := Down;
          } else if c == 'a' || c == 'A' {
            bufferedDir := Left;
          } else if c == 'd' || c == 'D' {
            bufferedDir := Right;
          } else if c == 'p' || c == 'P' {
            flags := flags.(pause := true);
          } else if c == 'r' || c == 'R' {
            flags := flags.(restart := true);
          } else if c == 'm' || c == 'M' {
            flags := flags.(mute := true);
          } else if c == 'g' || c == 'G' {
            flags := flags.(gate := true);
          } else if c == 'x' || c == 'X' {
            flags := flags.(levelSelect := true);
          } else if c == ' ' {
            flags := flags.(enter := true);
          }
        case _ =>
      }
    }

    /** `startTextInput`: name entry opens with an empty name. */
    method StartTextInput()
      requires Valid()
      modifies this
      ensures State() == old(State()).(text := NamePrompt(true, "", false))
      ensures Valid()
    {
      text := NamePrompt(true, "", false);
    }

    /** `stopTextInput`: name entry closes; the name typed so far stays. */
    method StopTextInput()
      requires Valid()
      modifies this
      ensures State() == old(State()).(text := old(text).(open := false, submitted := false))
      ensures Valid()
    {
      text := text.(open := false, submitted := false);
    }

    /** `consumePause`: the flag's value, which is then cleared, so a second call
        returns false. */
    method ConsumePause() returns (v: bool)
      modifies this
      ensures v == old(flags.pause) && State() == old(State()).(flags := old(flags).(pause := false))
    {
      v := flags.pause;
      flags := flags.(pause := false);
    }

    method ConsumeRestart() returns (v: bool)
      modifies this
      ensures v == old(flags.restart) && State() == old(State()).(flags := old(flags).(restart := false))
    {
      v := flags.restart;
      flags := flags.(restart := false);
    }

    method ConsumeMute() returns (v: bool)
      modifies this
      ensures v == old(flags.mute) && State() == old(State()).(flags := old(flags).(mute := false))
    {
      v := flags.mute;
      flags := flags.(mute := false);
    }

    method ConsumeGate() returns (v: bool)
      modifies this
      ensures v == old(flags.gate) && State() == old(State()).(flags := old(flags).(gate := false))
    {
      v := flags.gate;
      flags := flags.(gate := false);
    }

    method ConsumeEnter() returns (v: bool)
      modifies this
      ensures v == old(flags.enter) && State() == old(State()).(flags := old(flags).(enter := false))
    {
      v := flags.enter;
      flags := flags.(enter := false);
    }

    method ConsumeLevelSelect() returns (v: bool)
      modifies this
      ensures v == old(flags.levelSelect) && State() == old(State()).(flags := old(flags).(levelSelect := false))
    {
      v := flags.levelSelect;
      flags := flags.(levelSelect := false);
    }

    /** `startLevelSelect`: the prompt opens, empty, with neither outcome raised. */
    method StartLevelSelect()
      requires Valid()
      modifies this
      ensures State() == old(State()).(levelSelect := LevelPrompt(true, "", false, false))
      ensures Valid()
    {
      levelSelect := LevelPrompt(true, "", false, false);
    }

    /** `stopLevelSelect`: the prompt closes and its outcomes are cleared; the digits
        typed so far stay. */
    method StopLevelSelect()
      requires Valid()
      modifies this
      ensures State() == old(State()).(levelSelect := old(levelSelect).(open := false, submitted := false,
                                                                         cancelled := false))
      ensures Valid()
    {
      levelSelect := levelSelect.(open := false, submitted := false, cancelled := false);
    }
  }
}
