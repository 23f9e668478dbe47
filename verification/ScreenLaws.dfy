/** What single bytes do to a screen between sequences, and what a stay on the alternate screen keeps. */
module ScreenLaws {
  import opened Types
  import opened Canvases
  import opened Screens
  import opened Utf8
  import opened CsiParams
  import opened CanvasLaws
  import InputEncoder

  /** Only the cursor moves. */
  ghost predicate Moves(s: Screen, t: Screen, row: nat, col: nat) {
    t == s.(canvas := s.canvas.(row := row, col := col, pendingWrap := false))
  }

  /** Carriage return goes to the start of the line and backspace one cell back; a line feed goes one line down,
      and scrolls up at the bottom; a tab goes to the next column that eight divides, and keeps a waiting wrap;
      every other control character is ignored. */
  lemma ControlBytes(st: Styling, s: Screen)
    requires AtRest(s)
    ensures Moves(s, ProcessByte(st, s, 13), s.canvas.row, 0)
    ensures s.canvas.row < s.canvas.rows - 1 ==> Moves(s, ProcessByte(st, s, 10), s.canvas.row + 1, s.canvas.col)
    ensures s.canvas.row == s.canvas.rows - 1 ==>
              ProcessByte(st, s, 10) == s.(canvas := ExecuteCsi(st, s.canvas, [1], false, 'S'))
    ensures forall b: Byte :: b < 32 && b !in {8, 9, 10, 13, 27} ==> ProcessByte(st, s, b) == s
  {
    hide GridOk, PutChar, ExecuteCsi, ScrollUp, EscapeByte, CsiByte, OscByte, Backspace;
    RollsOnly(st, s.canvas, [1], false);
    var c := s.canvas.(pendingWrap := false);
    assert ScrollUpBy(c, 1) == ScrollUp(ScrollUpBy(c, 0));
  }

  lemma TabStops(st: Styling, s: Screen)
    requires AtRest(s)
    ensures var t := ProcessByte(st, s, 9);
            && t == s.(canvas := s.canvas.(col := t.canvas.col))
            && if t.canvas.col % 8 == 0 && t.canvas.col > s.canvas.col then t.canvas.col <= s.canvas.col + 8
               else t.canvas.col == s.canvas.cols - 1 && s.canvas.col / 8 == t.canvas.col / 8
  {
    hide GridOk, PutChar, ExecuteCsi, LineFeed, EscapeByte, CsiByte, OscByte, Backspace;
  }

  /** Backspace moves one cell back; it takes the attributes from a blank that it leaves or reaches. */
  lemma BackspaceCells(st: Styling, s: Screen)
    requires AtRest(s)
    ensures var c, d := s.canvas, ProcessByte(st, s, 8).canvas;
            var to_ := if c.col == 0 then 0 else c.col - 1;
            && ProcessByte(st, s, 8) == s.(canvas := d) && Redrawn(c.(col := to_), d)
            && forall y, x :: 0 <= y < c.rows && 0 <= x < c.cols ==>
                 Shown(d)[y][x] == if y == c.row && to_ <= x <= c.col && Shown(c)[y][x].ch == ' ' then EMPTY else Shown(c)[y][x]
  {
    hide PutChar, LineFeed, EscapeByte, CsiByte, OscByte;
  }

  /** A character without a waiting wrap goes to the cursor's cell; the cursor goes one cell on, or the wrap waits
      in the last column. With a waiting wrap it goes where carriage return and line feed lead. */
  ghost predicate Writes(c: Canvas, ch: char, d: Canvas) {
    && CanvasOk(c) && CanvasOk(d)
    && d == c.(main := d.main, alt := d.alt, col := if c.col == c.cols - 1 then c.col else c.col + 1,
               pendingWrap := c.col == c.cols - 1)
    && (if c.inAlt then d.main == c.main else d.alt == c.alt)
    && forall y, x :: 0 <= y < c.rows && 0 <= x < c.cols ==>
         Shown(d)[y][x] == if y == c.row && x == c.col then Cell(ch, c.attrs) else Shown(c)[y][x]
  }

  lemma CharacterWritten(c: Canvas, ch: char)
    requires CanvasOk(c) && !c.pendingWrap
    ensures Writes(c, ch, PutChar(c, ch))
  {
    hide LineFeed;
  }

  lemma CharacterBytes(st: Styling, s: Screen, b: Byte)
    requires AtRest(s) && 32 <= b < 128
    ensures !s.canvas.pendingWrap ==> ProcessByte(st, s, b) == s.(canvas := ProcessByte(st, s, b).canvas) &&
                                      Writes(s.canvas, b as char, ProcessByte(st, s, b).canvas)
    ensures s.canvas.pendingWrap ==>
              ProcessByte(st, s, b) == ProcessByte(st, ProcessByte(st, ProcessByte(st, s, 13), 10), b)
  {
    hide GridOk, CanvasOk, Writes, ScrollUp, EscapeByte, CsiByte, OscByte, Backspace;
    if !s.canvas.pendingWrap {
      CharacterWritten(s.canvas, b as char);
    } else {
      WrapAsLineFeed(s.canvas, b as char);
    }
  }

  lemma WrapAsLineFeed(c: Canvas, ch: char)
    requires CanvasOk(c) && c.pendingWrap
    ensures var e := c.(pendingWrap := false, col := 0);
            CanvasOk(e) && !LineFeed(e).pendingWrap && PutChar(c, ch) == PutChar(LineFeed(e), ch)
  {
    hide GridOk, RowText, PushLine, ScrolledUp;
  }

  /** Escape 7 saves the cursor and escape 8 puts it back, inside the screen. */
  lemma CursorSaved(st: Styling, s: Screen)
    requires AtRest(s)
    ensures ProcessBytes(st, s, [ESC, 0x37]) == s.(canvas := s.canvas.(savedRow := s.canvas.row, savedCol := s.canvas.col))
    ensures Moves(s, ProcessBytes(st, s, [ESC, 0x38]),
                  if s.canvas.savedRow < s.canvas.rows then s.canvas.savedRow else s.canvas.rows - 1,
                  if s.canvas.savedCol < s.canvas.cols then s.canvas.savedCol else s.canvas.cols - 1)
  {
    hide GridOk, PutChar, LineFeed, Backspace, ReverseIndex, CsiByte, OscByte, ProcessBytes;
    TwoBytes(st, s, ESC, 0x37);
    TwoBytes(st, s, ESC, 0x38);
  }

  /** Escape M goes one line up, and scrolls down at the top. */
  lemma IndexReversed(st: Styling, s: Screen)
    requires AtRest(s)
    ensures s.canvas.row > 0 ==> Moves(s, ProcessBytes(st, s, [ESC, 0x4d]), s.canvas.row - 1, s.canvas.col)
    ensures s.canvas.row == 0 ==>
              ProcessBytes(st, s, [ESC, 0x4d]) == s.(canvas := ExecuteCsi(st, s.canvas, [1], false, 'T'))
  {
    hide GridOk, PutChar, ExecuteCsi, ScrollDown, LineFeed, Backspace, CsiByte, OscByte, ProcessBytes;
    TwoBytes(st, s, ESC, 0x4d);
    RollsOnly(st, s.canvas, [1], false);
    var c := s.canvas.(pendingWrap := false);
    assert ScrollDownBy(c, 1) == ScrollDown(ScrollDownBy(c, 0));
  }

  lemma TwoBytes(st: Styling, s: Screen, a: Byte, b: Byte)
    requires WellFormed(s)
    ensures ProcessBytes(st, s, [a, b]) == ProcessByte(st, ProcessByte(st, s, a), b)
  {
    hide ProcessByte, WellFormed;
    assert [a, b][..1] == [a];
    OneByte(st, s, a);
  }

  /** The bytes sent for the arrow keys are the sequences that move a cursor up and down. */
  lemma ArrowsMove(st: Styling, s: Screen)
    requires AtRest(s)
    ensures var t := ProcessBytes(st, s, InputEncoder.KeyBytes(InputEncoder.Up));
            CursorAt(s.canvas, t.canvas, if s.canvas.row == 0 then 0 else s.canvas.row - 1, s.canvas.col)
    ensures var t := ProcessBytes(st, s, InputEncoder.KeyBytes(InputEncoder.Down));
            CursorAt(s.canvas, t.canvas, if s.canvas.row + 1 < s.canvas.rows then s.canvas.row + 1 else s.canvas.row, s.canvas.col)
  {
    hide GridOk, ProcessBytes, ExecuteCsi;
    SequenceExecutes(st, s, [], 0x41);
    SequenceExecutes(st, s, [], 0x42);
    assert Sequence([], 0x41) == [ESC, 0x5b, 0x41] && Sequence([], 0x42) == [ESC, 0x5b, 0x42];
    assert Saturated([]) == [];
    CursorMoves(st, s.canvas, [], false);
  }

  // ---- the alternate screen ----------------------------------------------------------------------------------

  ghost predicate KeepsMain(c: Canvas, d: Canvas) {
    d.main == c.main && d.scrollback == c.scrollback && d.rows == c.rows && d.cols == c.cols
  }

  lemma PutKeepsMain(c: Canvas, ch: char)
    requires CanvasOk(c) && c.inAlt
    ensures KeepsMain(c, PutChar(c, ch)) && PutChar(c, ch).inAlt
    ensures KeepsMain(c, LineFeed(c)) && KeepsMain(c, Backspace(c)) && KeepsMain(c, ReverseIndex(c))
  {
    hide GridOk, RowText, PushLine, ScrolledUp, ScrolledDown, Cleared;
  }

  lemma CommandKeepsMain(st: Styling, c: Canvas, params: seq<nat>, isPrivate: bool, cmd: char)
    requires CanvasOk(c) && c.inAlt
    ensures KeepsMain(c, ExecuteCsi(st, c, params, isPrivate, cmd))
  {
    hide GridOk, ExecuteCsi, Holds;
    OthersLeave(st, c, params, isPrivate, cmd);
    if cmd in {'A', 'B', 'C', 'D', 'E', 'F'} {
      CursorMoves(st, c, params, isPrivate);
    } else if cmd in {'H', 'f', 'd', 'G'} {
      CursorPlaced(st, c, params, isPrivate);
    } else if cmd in {'J', 'K', 'X'} {
      Erases(st, c, params, isPrivate);
    } else if cmd in {'P', '@', 'L', 'M'} {
      Shifts(st, c, params, isPrivate);
    } else if cmd in {'S', 'T'} {
      Rolls(st, c, params, isPrivate);
    } else if (cmd == 'h' || cmd == 'l') && !Unknown(params, isPrivate, cmd) {
      if params[0] == 1049 || params[0] == 47 {
        ScreensSwitch(st, c, params);
      } else {
        SwitchesSet(st, c, params);
      }
    }
  }

  lemma GroundKeepsMain(s: Screen, b: Byte)
    requires AtRest(s) && s.canvas.inAlt
    ensures KeepsMain(s.canvas, GroundByte(s, b).canvas)
  {
    hide GridOk, PutChar, LineFeed, Backspace, CanvasOk;
    var c := s.canvas;
    PutKeepsMain(c, REPLACEMENT);
    PutKeepsMain(c, b as char);
    assert CanvasOk(c.(pendingWrap := false)) by { UnwrappedOk(c); }
    PutKeepsMain(c.(pendingWrap := false), REPLACEMENT);
  }

  lemma UnwrappedOk(c: Canvas)
    requires CanvasOk(c)
    ensures CanvasOk(c.(pendingWrap := false))
  {
  }

  lemma EscapeKeepsMain(st: Styling, s: Screen, b: Byte)
    requires WellFormed(s) && s.canvas.inAlt && s.decoder.needed == 0
    ensures KeepsMain(s.canvas, EscapeByte(st, s, b).canvas)
  {
    hide GridOk, ReverseIndex;
    PutKeepsMain(s.canvas, REPLACEMENT);
  }

  lemma CsiKeepsMain(st: Styling, s: Screen, b: Byte)
    requires InSequence(s) && s.canvas.inAlt
    ensures KeepsMain(s.canvas, CsiByte(st, s, b).canvas)
  {
    hide GridOk, ExecuteCsi, GroundByte, CanvasOk;
    CommandKeepsMain(st, s.canvas, AllParams(s.decoder), s.decoder.isPrivate, b as char);
    GroundKeepsMain(WithParser(s, Ground), b);
  }

  lemma PlainKeepsMain(st: Styling, s: Screen, b: Byte)
    requires WellFormed(s) && s.canvas.inAlt && s.decoder.needed == 0
    ensures KeepsMain(s.canvas, PlainByte(st, s, b).canvas)
  {
    hide CanvasOk, GroundByte, EscapeByte, CsiByte;
    match s.decoder.parser {
      case Ground => GroundKeepsMain(s, b);
      case Escape => EscapeKeepsMain(st, s, b);
      case Csi => CsiKeepsMain(st, s, b);
      case Osc =>
    }
  }

  lemma ByteKeepsMain(st: Styling, s: Screen, b: Byte)
    requires WellFormed(s) && s.canvas.inAlt
    ensures KeepsMain(s.canvas, ProcessByte(st, s, b).canvas)
  {
    hide CanvasOk, PutChar, PlainByte;
    if s.decoder.needed == 0 {
      PlainKeepsMain(st, s, b);
    } else {
      PutKeepsMain(s.canvas, REPLACEMENT);
      PutKeepsMain(s.canvas, Decoded(s.decoder.utf8 + [b]));
      PlainKeepsMain(st, Put(DropPartial(s), REPLACEMENT), b);
    }
  }

  /** After every prefix of these bytes the alternate screen is shown. */
  ghost predicate StaysAlt(st: Styling, s: Screen, bytes: seq<Byte>)
    requires WellFormed(s)
  {
    forall k :: 0 <= k <= |bytes| ==> ProcessBytes(st, s, bytes[..k]).canvas.inAlt
  }

  lemma {:induction false} AltKeepsMain(st: Styling, s: Screen, bytes: seq<Byte>)
    requires WellFormed(s) && StaysAlt(st, s, bytes)
    ensures KeepsMain(s.canvas, ProcessBytes(st, s, bytes).canvas)
  {
    hide WellFormed, ProcessByte;
    if bytes != [] {
      var init := bytes[..|bytes| - 1];
      forall k | 0 <= k <= |init| ensures ProcessBytes(st, s, init[..k]).canvas.inAlt {
        assert init[..k] == bytes[..k];
      }
      AltKeepsMain(st, s, init);
      assert ProcessBytes(st, s, bytes[..|init|]).canvas.inAlt;
      ByteKeepsMain(st, ProcessBytes(st, s, init), bytes[|init|]);
    }
  }

  /** A program that enters the alternate screen, writes whatever it likes there, and leaves it again gives back
      the main screen and the scrollback as they were; the cursor goes where it was saved last. */
  lemma AltSession(st: Styling, s: Screen, mode: nat, bytes: seq<Byte>)
    requires AtRest(s) && !s.canvas.inAlt && (mode == 1049 || mode == 47)
    ensures var enter, leave := [ESC, 0x5b, '?' as int] + Rest([mode], 'h' as int), [ESC, 0x5b, '?' as int] + Rest([mode], 'l' as int);
            var entered := ProcessBytes(st, s, enter);
            var last := ProcessBytes(st, entered, bytes);
            && entered.canvas.savedRow == s.canvas.row && entered.canvas.savedCol == s.canvas.col
            && (StaysAlt(st, entered, bytes) && AtRest(last) ==>
                  var left := ProcessBytes(st, last, leave).canvas;
                  && !left.inAlt && left.main == s.canvas.main && left.scrollback == s.canvas.scrollback
                  && (last.canvas.savedRow == s.canvas.row && last.canvas.savedCol == s.canvas.col ==>
                        left.row == s.canvas.row && left.col == s.canvas.col))
  {
    hide GridOk, PutChar, ProcessByte, ProcessBytes, ExecuteCsi, Rest, StaysAlt;
    assert Saturated([mode]) == [mode];
    PrivateExecutes(st, s, [mode], 'h' as int);
    ScreensSwitch(st, s.canvas, [mode]);
    var entered := ProcessBytes(st, s, [ESC, 0x5b, '?' as int] + Rest([mode], 'h' as int));
    var last := ProcessBytes(st, entered, bytes);
    if StaysAlt(st, entered, bytes) && AtRest(last) {
      AltKeepsMain(st, entered, bytes);
      PrivateExecutes(st, last, [mode], 'l' as int);
      ScreensSwitch(st, last.canvas, [mode]);
    }
  }
}
