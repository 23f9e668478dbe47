/** The screen emulator as an object: loops over cells and rows, and fields updated byte by byte. */
module Terminals {
  import opened Types
  import opened Text
  import opened Canvases
  import opened Screens

  // ---- loops over one grid ------------------------------------------------------------------------

  method EraseCells(row: Row, from: nat, until: nat) returns (out: Row)
    requires from <= until <= |row|
    ensures out == Erased(row, from, until)
  {
    out := row;
    for c := from to until
      invariant out == Erased(row, from, c)
    {
      out := out[c := BLANK];
    }
  }

  method EraseRows(g: Grid, rows: nat, cols: nat, from: nat, until: nat) returns (out: Grid)
    requires GridOk(g, rows, cols) && from <= until <= rows
    ensures out == g[..from] + BlankRows(until - from, cols) + g[until..]
  {
    out := g;
    for r := from to until
      invariant out == g[..from] + BlankRows(r - from, cols) + g[r..]
    {
      var row := EraseCells(out[r], 0, cols);
      assert row == Blanks(cols);
      out := out[r := row];
    }
  }

  method EraseInDisplay(g: Grid, rows: nat, cols: nat, row: nat, col: nat, mode: nat) returns (out: Grid)
    requires GridOk(g, rows, cols) && row < rows && col < cols
    ensures out == DisplayErased(g, rows, cols, row, col, mode)
  {
    out := g;
    match mode {
      case 0 =>
        var line := EraseCells(g[row], col, cols);
        out := EraseRows(g[row := line], rows, cols, row + 1, rows);
      case 1 =>
        out := EraseRows(g, rows, cols, 0, row);
        var line := EraseCells(g[row], 0, col + 1);
        out := out[row := line];
      case 2 => out := EraseRows(g, rows, cols, 0, rows);
      case 3 => out := EraseRows(g, rows, cols, 0, rows);
      case _ =>
    }
  }

  method EraseInLine(g: Grid, rows: nat, cols: nat, row: nat, col: nat, mode: nat) returns (out: Grid)
    requires GridOk(g, rows, cols) && row < rows && col < cols
    ensures out == LineErased(g, rows, cols, row, col, mode)
  {
    var line := g[row];
    match mode {
      case 0 => line := EraseCells(line, col, cols);
      case 1 => line := EraseCells(line, 0, col + 1);
      case 2 => line := EraseCells(line, 0, cols); assert line == Blanks(cols);
      case _ =>
    }
    out := g[row := line];
  }

  /** Inserts blank cells one at a time and cuts the row at its width. */
  method InsertCells(g: Grid, rows: nat, cols: nat, row: nat, col: nat, n: nat) returns (out: Grid)
    requires GridOk(g, rows, cols) && row < rows && col < cols
    ensures out == CharsInserted(g, rows, cols, row, col, n)
  {
    var k := Min(n, cols - col);
    var line := g[row];
    for i := 0 to k
      invariant line == g[row][..col] + Blanks(i) + g[row][col..]
    {
      line := line[..col] + [BLANK] + line[col..];
    }
    line := line[..cols];
    assert line == g[row][..col] + Blanks(k) + g[row][col..cols - k];
    out := g[row := line];
  }

  /** Removes cells and pads the row to its width. */
  method DeleteCells(g: Grid, rows: nat, cols: nat, row: nat, col: nat, n: nat) returns (out: Grid)
    requires GridOk(g, rows, cols) && row < rows && col < cols
    ensures out == CharsDeleted(g, rows, cols, row, col, n)
  {
    var k := Min(n, cols - col);
    var line := g[row][..col] + g[row][col + k..];
    while |line| < cols
      invariant |line| <= cols && line == g[row][..col] + g[row][col + k..] + Blanks(|line| - (cols - k))
      invariant |line| >= cols - k
    {
      line := line + [BLANK];
    }
    out := g[row := line];
  }

  /** Pops the last row and inserts a blank one at the cursor, once per line. */
  method InsertRows(g: Grid, rows: nat, cols: nat, row: nat, n: nat) returns (out: Grid)
    requires GridOk(g, rows, cols) && row < rows
    ensures out == LinesInserted(g, rows, cols, row, n)
  {
    hide BlankRows, Blanks;
    var k := Min(n, rows - row);
    out := g;
    NoBlankRows(cols);
    assert out == g[..row] + BlankRows(0, cols) + g[row..rows - 0];
    for i := 0 to k
      invariant |out| == rows && out == g[..row] + BlankRows(i, cols) + g[row..rows - i]
    {
      InsertStep(g, rows, cols, row, i);
      out := out[..|out| - 1];
      out := out[..row] + [Blanks(cols)] + out[row..];
    }
  }

  lemma InsertStep(g: Grid, rows: nat, cols: nat, row: nat, i: nat)
    requires GridOk(g, rows, cols) && row < rows && i < rows - row
    ensures var out := g[..row] + BlankRows(i, cols) + g[row..rows - i];
            var popped := out[..|out| - 1];
            && |out| == rows
            && popped[..row] + [Blanks(cols)] + popped[row..] == g[..row] + BlankRows(i + 1, cols) + g[row..rows - (i + 1)]
  {
    hide Blanks, BlankRows;
    OneBlankRow(i, cols);
    var tail := g[row..rows - i];
    BlankRowsLength(i, cols);
    ShiftOne(g[..row], BlankRows(i, cols), tail, Blanks(cols));
    assert tail[..|tail| - 1] == g[row..rows - (i + 1)];
  }

  /** Popping the last element of three parts put together and inserting one after the first part. */
  lemma ShiftOne<T>(a: seq<T>, b: seq<T>, c: seq<T>, x: T)
    requires c != []
    ensures var popped := (a + b + c)[..|a + b + c| - 1];
            popped[..|a|] + [x] + popped[|a|..] == a + ([x] + b) + c[..|c| - 1]
  {
  }

  lemma BlankRowsLength(n: nat, cols: nat)
    ensures |BlankRows(n, cols)| == n
  {
  }

  lemma NoBlankRows(cols: nat)
    ensures BlankRows(0, cols) == []
  {
  }

  lemma OneBlankRow(n: nat, cols: nat)
    ensures [Blanks(cols)] + BlankRows(n, cols) == BlankRows(n + 1, cols)
  {
  }

  /** Removes the cursor's row and pushes a blank one at the bottom, once per line. */
  method DeleteRows(g: Grid, rows: nat, cols: nat, row: nat, n: nat) returns (out: Grid)
    requires GridOk(g, rows, cols) && row < rows
    ensures out == LinesDeleted(g, rows, cols, row, n)
  {
    var k := Min(n, rows - row);
    out := g;
    for i := 0 to k
      invariant out == g[..row] + g[row + i..] + BlankRows(i, cols)
    {
      out := out[..row] + out[row + 1..];
      out := out + [Blanks(cols)];
    }
  }

  method ResizeGrid(g: Grid, cols: nat, rows: nat) returns (out: Grid)
    ensures out == FitGrid(g, cols, rows)
  {
    out := [];
    for r := 0 to rows
      invariant |out| == r && forall i :: 0 <= i < r ==> out[i] == FitGrid(g, cols, rows)[i]
    {
      var row := if r < |g| then g[r] else [];
      if cols <= |row| {
        row := row[..cols];
      }
      ghost var kept := row;
      while |row| < cols
        invariant |row| <= cols && |kept| <= |row| && row == kept + Blanks(|row| - |kept|)
      {
        row := row + [BLANK];
      }
      out := out + [row];
    }
  }

  // ---- the emulator ---------------------------------------------------------------------------------

  class Terminal {
    const styling: Styling

    var cols: nat
    var rows: nat
    var cursorRow: nat
    var cursorCol: nat
    var savedCursor: (nat, nat)
    var inAltScreen: bool
    var cursorVisible: bool
    var bracketedPaste: bool
    var mainGrid: Grid
    var altGrid: Grid
    var scrollback: seq<string>
    var currentAttrs: Attributes
    var pendingWrap: bool

    var parserState: ParserState
    var csiParams: seq<nat>
    var csiCurrentParam: Option<nat>
    var csiIsPrivate: bool
    var csiHasIntermediate: bool
    var utf8Buf: seq<Byte>
    var utf8Needed: nat
    var oscBuf: seq<Byte>

    ghost function C(): Canvas
      reads `cols, `rows, `cursorRow, `cursorCol, `savedCursor, `inAltScreen, `cursorVisible, `bracketedPaste,
            `mainGrid, `altGrid, `scrollback, `currentAttrs, `pendingWrap
    {
      Canvas(cols, rows, cursorRow, cursorCol, savedCursor.0, savedCursor.1, inAltScreen, cursorVisible, bracketedPaste,
             mainGrid, altGrid, scrollback, currentAttrs, pendingWrap)
    }

    ghost function D(): Decoder
      reads `parserState, `csiParams, `csiCurrentParam, `csiIsPrivate, `csiHasIntermediate, `utf8Buf, `utf8Needed, `oscBuf
    {
      Decoder(parserState, csiParams, csiCurrentParam, csiIsPrivate, csiHasIntermediate, utf8Buf, utf8Needed, oscBuf)
    }

    ghost function S(): Screen
      reads this
    {
      Screen(C(), D())
    }

    constructor (styling: Styling, cols: nat, rows: nat)
      requires 1 <= cols <= U16_MAX && 1 <= rows <= U16_MAX
      ensures S() == NewScreen(cols, rows) && WellFormed(S()) && this.styling == styling
    {
      this.styling := styling;
      this.cols, this.rows, cursorRow, cursorCol, savedCursor := cols, rows, 0, 0, (0, 0);
      inAltScreen, cursorVisible, bracketedPaste := false, true, false;
      mainGrid, altGrid, scrollback := BlankRows(rows, cols), BlankRows(rows, cols), [];
      currentAttrs, pendingWrap := PLAIN, false;
      parserState, csiParams, csiCurrentParam, csiIsPrivate, csiHasIntermediate := Ground, [], None, false, false;
      utf8Buf, utf8Needed, oscBuf := [], 0, [];
    }

    method Reshape(cols: nat, rows: nat, main: Grid, alt: Grid)
      requires 1 <= cols && 1 <= rows
      modifies `cols, `rows, `mainGrid, `altGrid, `cursorRow, `cursorCol
      ensures C() == old(C()).(cols := cols, rows := rows, main := main, alt := alt,
                               row := Min(old(C()).row, rows - 1), col := Min(old(C()).col, cols - 1))
    {
      this.cols, this.rows, mainGrid, altGrid := cols, rows, main, alt;
      cursorRow, cursorCol := Min(cursorRow, rows - 1), Min(cursorCol, cols - 1);
    }

    method Resize(cols: nat, rows: nat)
      requires WellFormed(S()) && 1 <= cols <= U16_MAX && 1 <= rows <= U16_MAX
      modifies this
      ensures S() == ResizeScreen(old(S()), cols, rows) && WellFormed(S())
    {
      hide CanvasOk, FitGrid, DecoderOk;
      ResizeKeeps(C(), cols, rows);
      var main := ResizeGrid(mainGrid, cols, rows);
      var alt := ResizeGrid(altGrid, cols, rows);
      Reshape(cols, rows, main, alt);
    }

    function ActiveGrid(): Grid
      reads this
    {
      if inAltScreen then altGrid else mainGrid
    }

    method SetGrid(g: Grid)
      modifies this`mainGrid, this`altGrid
      ensures C() == WithActive(old(C()), g)
    {
      if inAltScreen {
        altGrid := g;
      } else {
        mainGrid := g;
      }
    }

    method ScrollUp()
      requires CanvasOk(C())
      modifies this`mainGrid, this`altGrid, this`scrollback
      ensures C() == Canvases.ScrollUp(old(C()))
    {
      hide GridOk, TrimEnd;
      assert mainGrid != [] && altGrid != [] by { NonEmpty(C()); }
      if !inAltScreen {
        var text := RowText(mainGrid[0]);
        if !IsBlank(text) || (scrollback != [] && scrollback[|scrollback| - 1] != "") {
          scrollback := scrollback + [TrimEnd(text)];
          if |scrollback| > MAX_SCROLLBACK {
            scrollback := scrollback[1..];
          }
        }
      }
      var g: Grid := ActiveGrid();
      g := g[1..];
      g := g + [Blanks(cols)];
      SetGrid(g);
    }

    method ScrollDown()
      requires CanvasOk(C())
      modifies this`mainGrid, this`altGrid
      ensures C() == Canvases.ScrollDown(old(C()))
    {
      hide GridOk;
      assert mainGrid != [] && altGrid != [] by { NonEmpty(C()); }
      var g: Grid := ActiveGrid();
      g := g[..|g| - 1];
      g := [Blanks(cols)] + g;
      SetGrid(g);
    }

    method LineFeed()
      requires CanvasOk(C())
      modifies this`mainGrid, this`altGrid, this`scrollback, this`cursorRow
      ensures C() == Canvases.LineFeed(old(C()))
    {
      hide GridOk, Canvases.ScrollUp;
      if cursorRow + 1 >= rows {
        ScrollUp();
      } else {
        cursorRow := cursorRow + 1;
      }
    }

    /** The wrap that was waiting. */
    method WrapLine()
      requires CanvasOk(C())
      modifies this`mainGrid, this`altGrid, this`scrollback, this`cursorRow, this`cursorCol, this`pendingWrap
      ensures C() == Canvases.LineFeed(old(C()).(pendingWrap := false, col := 0)) && CanvasOk(C())
    {
      hide GridOk, Canvases.LineFeed;
      pendingWrap := false;
      cursorCol := 0;
      LineFeed();
    }

    method PutChar(ch: char)
      requires CanvasOk(C())
      modifies this`mainGrid, this`altGrid, this`scrollback, this`cursorRow, this`cursorCol, this`pendingWrap
      ensures C() == Canvases.PutChar(old(C()), ch) && CanvasOk(C())
    {
      hide GridOk, Canvases.LineFeed;
      if pendingWrap {
        WrapLine();
      }
      CursorInside(C());
      var g: Grid := ActiveGrid();
      g := g[cursorRow := g[cursorRow][cursorCol := Cell(ch, currentAttrs)]];
      SetGrid(g);
      if cursorCol + 1 >= cols {
        pendingWrap := true;
      } else {
        cursorCol := cursorCol + 1;
      }
    }

    method BackspaceKey()
      requires CanvasOk(C())
      modifies this`mainGrid, this`altGrid, this`cursorCol, this`pendingWrap
      ensures C() == Backspace(old(C())) && CanvasOk(C())
    {
      pendingWrap := false;
      var oldCol := cursorCol;
      cursorCol := if cursorCol > 0 then cursorCol - 1 else 0;
      var g: Grid := ActiveGrid();
      if g[cursorRow][oldCol].ch == ' ' {
        g := g[cursorRow := g[cursorRow][oldCol := BLANK]];
      }
      if g[cursorRow][cursorCol].ch == ' ' {
        g := g[cursorRow := g[cursorRow][cursorCol := BLANK]];
      }
      SetGrid(g);
    }

    method EraseInScreen(mode: nat)
      requires CanvasOk(C())
      modifies this`mainGrid, this`altGrid, this`scrollback
      ensures C() == EraseDisplay(old(C()), mode)
    {
      hide DisplayErased, GridOk;
      assert GridOk(ActiveGrid(), rows, cols);
      if mode == 3 && !inAltScreen {
        scrollback := [];
      }
      var g: Grid := ActiveGrid();
      g := EraseInDisplay(g, rows, cols, cursorRow, cursorCol, mode);
      SetGrid(g);
    }

    method EraseInRow(mode: nat)
      requires CanvasOk(C())
      modifies this`mainGrid, this`altGrid
      ensures C() == EraseLine(old(C()), mode)
    {
      hide LineErased, GridOk;
      assert GridOk(ActiveGrid(), rows, cols);
      var g: Grid := ActiveGrid();
      g := EraseInLine(g, rows, cols, cursorRow, cursorCol, mode);
      SetGrid(g);
    }

    method EraseCount(n: nat)
      requires CanvasOk(C())
      modifies this`mainGrid, this`altGrid
      ensures C() == EraseChars(old(C()), n)
    {
      var g: Grid := ActiveGrid();
      var line := EraseCells(g[cursorRow], cursorCol, Min(cursorCol + n, cols));
      SetGrid(g[cursorRow := line]);
    }

    method DeleteCount(n: nat)
      requires CanvasOk(C())
      modifies this`mainGrid, this`altGrid
      ensures C() == DeleteChars(old(C()), n)
    {
      hide CharsDeleted, GridOk;
      assert GridOk(ActiveGrid(), rows, cols);
      var g: Grid := ActiveGrid();
      g := DeleteCells(g, rows, cols, cursorRow, cursorCol, n);
      SetGrid(g);
    }

    method InsertCount(n: nat)
      requires CanvasOk(C())
      modifies this`mainGrid, this`altGrid
      ensures C() == InsertChars(old(C()), n)
    {
      hide CharsInserted, GridOk;
      assert GridOk(ActiveGrid(), rows, cols);
      var g: Grid := ActiveGrid();
      g := InsertCells(g, rows, cols, cursorRow, cursorCol, n);
      SetGrid(g);
    }

    method InsertLineCount(n: nat)
      requires CanvasOk(C())
      modifies this`mainGrid, this`altGrid
      ensures C() == InsertLines(old(C()), n)
    {
      hide LinesInserted, GridOk;
      assert GridOk(ActiveGrid(), rows, cols);
      var g: Grid := ActiveGrid();
      g := InsertRows(g, rows, cols, cursorRow, n);
      SetGrid(g);
    }

    method DeleteLineCount(n: nat)
      requires CanvasOk(C())
      modifies this`mainGrid, this`altGrid
      ensures C() == DeleteLines(old(C()), n)
    {
      hide LinesDeleted, GridOk;
      assert GridOk(ActiveGrid(), rows, cols);
      var g: Grid := ActiveGrid();
      g := DeleteRows(g, rows, cols, cursorRow, n);
      SetGrid(g);
    }

    /** The commands that erase, insert or delete. */
    method ExecuteEdit(cmd: char)
      requires CanvasOk(C()) && IsEdit(cmd)
      modifies this`mainGrid, this`altGrid, this`scrollback
      ensures C() == EditGrid(old(C()), csiParams, cmd)
    {
      hide EraseDisplay, EraseLine, EraseChars, DeleteChars, InsertChars, InsertLines, DeleteLines, GridOk;
      match cmd
      case 'J' => EraseInScreen(FirstParam(csiParams, 0));
      case 'K' => EraseInRow(FirstParam(csiParams, 0));
      case 'X' => EraseCount(Count(csiParams));
      case 'P' => DeleteCount(Count(csiParams));
      case '@' => InsertCount(Count(csiParams));
      case 'L' => InsertLineCount(Count(csiParams));
      case 'M' => DeleteLineCount(Count(csiParams));
    }

    method ExecuteCursorCommand(cmd: char)
      requires CanvasOk(C())
      modifies this`cursorRow, this`cursorCol
      ensures C() == MoveCursor(old(C()), csiParams, cmd)
    {
      hide GridOk;
      var n := Count(csiParams);
      match cmd
      case 'H' => cursorRow, cursorCol := Coordinate(csiParams, 0, rows), Coordinate(csiParams, 1, cols);
      case 'f' => cursorRow, cursorCol := Coordinate(csiParams, 0, rows), Coordinate(csiParams, 1, cols);
      case 'A' => cursorRow := MinusClamped(cursorRow, n);
      case 'B' => cursorRow := Min(cursorRow + n, rows - 1);
      case 'C' => cursorCol := Min(cursorCol + n, cols - 1);
      case 'D' => cursorCol := MinusClamped(cursorCol, n);
      case 'E' => cursorRow, cursorCol := Min(cursorRow + n, rows - 1), 0;
      case 'F' => cursorRow, cursorCol := MinusClamped(cursorRow, n), 0;
      case 'G' => cursorCol := Coordinate(csiParams, 0, cols);
      case 'd' => cursorRow := Coordinate(csiParams, 0, rows);
      case _ =>
    }

    method ExecuteMode(set_: bool)
      requires CanvasOk(C())
      modifies this`cursorRow, this`cursorCol, this`savedCursor, this`inAltScreen, this`altGrid, this`cursorVisible, this`bracketedPaste
      ensures C() == if set_ then SetMode(old(C()), csiParams) else ResetMode(old(C()), csiParams)
    {
      if csiParams == [] {
        return;
      }
      match csiParams[0]
      case 1049 => SwitchScreen(set_);
      case 47 => SwitchScreen(set_);
      case 25 => cursorVisible := set_;
      case 2004 => bracketedPaste := set_;
      case _ =>
    }

    method SwitchScreen(toAlt: bool)
      requires CanvasOk(C())
      modifies this`cursorRow, this`cursorCol, this`savedCursor, this`inAltScreen, this`altGrid
      ensures C() == if toAlt then EnterAlt(old(C())) else RestoreCursor(old(C()).(inAlt := false))
    {
      if toAlt {
        savedCursor := (cursorRow, cursorCol);
        inAltScreen := true;
        altGrid := EraseRows(altGrid, rows, cols, 0, rows);
        assert altGrid == BlankRows(rows, cols);
      } else {
        inAltScreen := false;
        cursorRow := Min(savedCursor.0, rows - 1);
        cursorCol := Min(savedCursor.1, cols - 1);
      }
    }

    method ScrollTimes(up: bool)
      requires CanvasOk(C())
      modifies this`mainGrid, this`altGrid, this`scrollback
      ensures C() == if up then ScrollUpBy(old(C()), Count(csiParams)) else ScrollDownBy(old(C()), Count(csiParams))
    {
      hide CanvasOk, Canvases.ScrollUp, Canvases.ScrollDown;
      for i := 0 to Count(csiParams)
        invariant CanvasOk(C()) && C() == if up then ScrollUpBy(old(C()), i) else ScrollDownBy(old(C()), i)
      {
        if up {
          ScrollUp();
        } else {
          ScrollDown();
        }
      }
    }

    method ExecuteCommand(cmd: char)
      requires CanvasOk(C())
      modifies this`cursorRow, this`cursorCol, this`savedCursor, this`inAltScreen, this`mainGrid, this`altGrid,
               this`scrollback, this`cursorVisible, this`bracketedPaste, this`currentAttrs, this`pendingWrap
      ensures C() == ExecuteCsi(styling, old(C()), csiParams, csiIsPrivate, cmd) && CanvasOk(C())
    {
      hide EditGrid, ScrollUpBy, ScrollDownBy, SetMode, ResetMode, MoveCursor, GridOk;
      if cmd != 'm' {
        pendingWrap := false;
      }
      if IsEdit(cmd) {
        ExecuteEdit(cmd);
      } else {
        match cmd
        case 'm' => currentAttrs := styling.sgr(currentAttrs, csiParams);
        case 'h' =>
          if csiIsPrivate {
            ExecuteMode(true);
          }
        case 'l' =>
          if csiIsPrivate {
            ExecuteMode(false);
          }
        case 'S' => ScrollTimes(true);
        case 'T' => ScrollTimes(false);
        case _ => ExecuteCursorCommand(cmd);
      }
    }

    method ExecuteOscBuffer()
      modifies this`currentAttrs, this`oscBuf
      ensures WellFormed(old(S())) ==> S() == ExecuteOsc(styling, old(S()))
    {
      hide GridOk;
      if oscBuf != [] {
        currentAttrs := styling.osc(currentAttrs, oscBuf);
        oscBuf := [];
      }
    }

    method SetParser(p: ParserState)
      modifies `parserState
      ensures D() == old(D()).(parser := p)
    {
      parserState := p;
    }

    method StartCharacter(b: Byte, needed: nat)
      modifies `utf8Buf, `utf8Needed
      ensures D() == old(D()).(utf8 := [b], needed := needed)
    {
      utf8Buf, utf8Needed := [b], needed;
    }

    method CarriageReturn()
      modifies `cursorCol, `pendingWrap
      ensures C() == old(C()).(pendingWrap := false, col := 0)
    {
      pendingWrap := false;
      cursorCol := 0;
    }

    method NewLine()
      requires CanvasOk(C())
      modifies this`mainGrid, this`altGrid, this`scrollback, this`cursorRow, this`pendingWrap
      ensures C() == Canvases.LineFeed(old(C()).(pendingWrap := false))
    {
      hide GridOk, Canvases.LineFeed;
      pendingWrap := false;
      LineFeed();
    }

    method Tab()
      requires cols > 0
      modifies `cursorCol
      ensures C() == old(C()).(col := Min((old(C()).col / 8 + 1) * 8, cols - 1))
    {
      cursorCol := Min((cursorCol / 8 + 1) * 8, cols - 1);
    }

    lemma HasColumns()
      requires CanvasOk(C())
      ensures cols > 0 && C().cols == cols
    {
    }

    method OnGround(b: Byte)
      requires WellFormed(S()) && utf8Needed == 0 && parserState == Ground
      modifies this
      ensures S() == GroundByte(old(S()), b)
    {
      hide C, D, CanvasOk, DecoderOk, Canvases.PutChar, Canvases.LineFeed, Backspace;
      HasColumns();
      if b == 0x1b {
        SetParser(Escape);
      } else if 0xC2 <= b <= 0xDF {
        StartCharacter(b, 2);
      } else if 0xE0 <= b <= 0xEF {
        StartCharacter(b, 3);
      } else if 0xF0 <= b <= 0xF4 {
        StartCharacter(b, 4);
      } else if b >= 0x80 {
        PutChar(REPLACEMENT);
      } else if b == 0x0d {
        CarriageReturn();
      } else if b == 0x0a {
        NewLine();
      } else if b == 0x08 {
        BackspaceKey();
      } else if b == 0x09 {
        Tab();
      } else if b > 0x1f {
        PutChar(b as char);
      }
    }

    method ReverseIndex()
      requires CanvasOk(C())
      modifies this`mainGrid, this`altGrid, this`cursorRow, this`pendingWrap
      ensures C() == Canvases.ReverseIndex(old(C()))
    {
      hide GridOk, Canvases.ScrollDown;
      pendingWrap := false;
      if cursorRow == 0 {
        ScrollDown();
      } else {
        cursorRow := cursorRow - 1;
      }
    }

    method StartSequence()
      modifies `parserState, `csiParams, `csiCurrentParam, `csiIsPrivate, `csiHasIntermediate
      ensures D() == old(D()).(parser := Csi, params := [], param := None, isPrivate := false, hasIntermediate := false)
    {
      parserState, csiParams, csiCurrentParam, csiIsPrivate, csiHasIntermediate := Csi, [], None, false, false;
    }

    method StartOsc()
      modifies `parserState, `oscBuf
      ensures D() == old(D()).(parser := Osc, osc := [])
    {
      parserState, oscBuf := Osc, [];
    }

    method SaveCursor()
      modifies `savedCursor
      ensures C() == old(C()).(savedRow := old(C()).row, savedCol := old(C()).col)
    {
      savedCursor := (cursorRow, cursorCol);
    }

    method LoadCursor()
      requires CanvasOk(C())
      modifies `cursorRow, `cursorCol, `pendingWrap
      ensures C() == RestoreCursor(old(C()).(pendingWrap := false))
    {
      hide GridOk;
      pendingWrap := false;
      cursorRow := Min(savedCursor.0, rows - 1);
      cursorCol := Min(savedCursor.1, cols - 1);
    }

    method OnEscape(b: Byte)
      requires WellFormed(S()) && utf8Needed == 0
      modifies this
      ensures S() == EscapeByte(styling, old(S()), b)
    {
      hide C, D, GridOk, DecoderOk, Canvases.ReverseIndex, RestoreCursor, ExecuteOsc;
      if b == '[' as int {
        StartSequence();
      } else if b == ']' as int {
        StartOsc();
      } else if b == '7' as int {
        SaveCursor();
        SetParser(Ground);
      } else if b == '8' as int {
        LoadCursor();
        SetParser(Ground);
      } else if b == '\\' as int {
        ExecuteOscBuffer();
        SetParser(Ground);
      } else if b == 'M' as int {
        ReverseIndex();
        SetParser(Ground);
      } else {
        SetParser(Ground);
      }
    }

    method SetParams(params: seq<nat>, param: Option<nat>)
      modifies `csiParams, `csiCurrentParam
      ensures D() == old(D()).(params := params, param := param)
    {
      csiParams, csiCurrentParam := params, param;
    }

    method SetMarks(isPrivate: bool, hasIntermediate: bool)
      modifies `csiIsPrivate, `csiHasIntermediate
      ensures D() == old(D()).(isPrivate := isPrivate, hasIntermediate := hasIntermediate)
    {
      csiIsPrivate, csiHasIntermediate := isPrivate, hasIntermediate;
    }

    /** The final byte: closes the open parameter and executes, unless there was an intermediate byte. */
    method FinishSequence(cmd: char)
      requires CanvasOk(C())
      modifies this
      ensures D() == old(D()).(params := AllParams(old(D())), parser := Ground)
      ensures C() == if old(csiHasIntermediate) then old(C())
                     else ExecuteCsi(styling, old(C()), AllParams(old(D())), old(csiIsPrivate), cmd)
    {
      hide C, CanvasOk, ExecuteCsi;
      if csiCurrentParam.Some? {
        csiParams := csiParams + [csiCurrentParam.value];
      }
      if !csiHasIntermediate {
        ExecuteCommand(cmd);
      }
      parserState := Ground;
    }

    method OnCsi(b: Byte)
      requires WellFormed(S()) && utf8Needed == 0
      modifies this
      ensures S() == CsiByte(styling, old(S()), b)
    {
      hide C, D, CanvasOk, DecoderOk, ExecuteCsi, GroundByte;
      DecoderFields();
      if 0x30 <= b <= 0x39 {
        SetParams(csiParams, Some(AddDigit(OrZero(csiCurrentParam), b - 0x30)));
      } else if b == ';' as int || b == ':' as int {
        SetParams(csiParams + [OrZero(csiCurrentParam)], None);
      } else if 0x3c <= b <= 0x3f {
        SetMarks(true, csiHasIntermediate);
      } else if 0x20 <= b <= 0x2f {
        SetMarks(csiIsPrivate, true);
      } else if 0x40 <= b <= 0x7e {
        FinishSequence(b as char);
      } else {
        GroundedOk(D());
        SetParser(Ground);
        if b < 0x20 {
          DecoderFields();
          OnGround(b);
        }
      }
    }

    lemma GroundedOk(d: Decoder)
      requires DecoderOk(d)
      ensures DecoderOk(d.(parser := Ground))
    {
    }

    lemma DecoderFields()
      ensures D() == Decoder(parserState, csiParams, csiCurrentParam, csiIsPrivate, csiHasIntermediate, utf8Buf, utf8Needed,
                             oscBuf)
    {
    }

    method OnOsc(b: Byte)
      requires WellFormed(S()) && utf8Needed == 0
      modifies this
      ensures S() == OscByte(styling, old(S()), b)
    {
      hide GridOk;
      if b == 0x07 {
        ExecuteOscBuffer();
        parserState := Ground;
      } else if b == 0x1b {
        parserState := Escape;
      } else if |oscBuf| < MAX_OSC {
        oscBuf := oscBuf + [b];
      }
    }

    method OnByte(b: Byte)
      requires WellFormed(S()) && utf8Needed == 0
      modifies this
      ensures S() == PlainByte(styling, old(S()), b) && WellFormed(S())
    {
      hide GridOk, CanvasOk, GroundByte, EscapeByte, CsiByte, OscByte;
      match parserState
      case Ground => OnGround(b);
      case Escape => OnEscape(b);
      case Csi => OnCsi(b);
      case Osc => OnOsc(b);
    }

    method SetPartial(utf8: seq<Byte>, needed: nat)
      modifies `utf8Buf, `utf8Needed
      ensures D() == old(D()).(utf8 := utf8, needed := needed)
    {
      utf8Buf, utf8Needed := utf8, needed;
    }

    /** One byte; the screen stays well-formed whatever it is. */
    method ProcessByteOf(b: Byte)
      requires WellFormed(S())
      modifies this
      ensures S() == ProcessByte(styling, old(S()), b) && WellFormed(S())
    {
      hide C, D, CanvasOk, Canvases.PutChar, PlainByte, Decoded;
      DecoderFields();
      if utf8Needed > 0 {
        if 0x80 <= b < 0xC0 {
          SetPartial(utf8Buf + [b], utf8Needed);
          DecoderFields();
          if |utf8Buf| == utf8Needed {
            var ch := Decoded(utf8Buf);
            SetPartial([], 0);
            PutChar(ch);
          }
          return;
        }
        SetPartial([], 0);
        PutChar(REPLACEMENT);
        DecoderFields();
      }
      OnByte(b);
    }

    method ProcessAll(bytes: seq<Byte>)
      requires WellFormed(S())
      modifies this
      ensures S() == ProcessBytes(styling, old(S()), bytes) && WellFormed(S())
    {
      hide WellFormed, ProcessByte;
      for i := 0 to |bytes|
        invariant WellFormed(S()) && S() == ProcessBytes(styling, old(S()), bytes[..i])
      {
        assert bytes[..i + 1][..i] == bytes[..i];
        ProcessByteOf(bytes[i]);
      }
      assert bytes[..|bytes|] == bytes;
    }
  }
}
