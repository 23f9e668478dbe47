/** What is on the terminal screen, and the operations that change it. */
module Canvases {
  import opened Types
  import opened Text

  const MAX_SCROLLBACK: nat := 2000
  const U16_MAX: nat := 65535

  /** Character attributes are opaque values. */
  type Attributes = nat

  const PLAIN: Attributes := 0

  datatype Cell = Cell(ch: char, attrs: Attributes)

  const BLANK: Cell := Cell(' ', PLAIN)

  type Row = seq<Cell>
  type Grid = seq<Row>

  datatype Canvas = Canvas(
    cols: nat, rows: nat,
    row: nat, col: nat,
    savedRow: nat, savedCol: nat,
    inAlt: bool, cursorVisible: bool, bracketedPaste: bool,
    main: Grid, alt: Grid,
    scrollback: seq<string>,
    attrs: Attributes,
    pendingWrap: bool)

  function Blanks(n: nat): (r: Row)
    ensures |r| == n && forall i :: 0 <= i < n ==> r[i] == BLANK
  {
    seq(n, _ => BLANK)
  }

  function BlankRows(n: nat, cols: nat): (g: Grid)
    ensures |g| == n && forall i :: 0 <= i < n ==> g[i] == Blanks(cols)
  {
    seq(n, _ => Blanks(cols))
  }

  function NewCanvas(cols: nat, rows: nat): Canvas {
    Canvas(cols, rows, 0, 0, 0, 0, false, true, false, BlankRows(rows, cols), BlankRows(rows, cols), [], PLAIN, false)
  }

  predicate GridOk(g: Grid, rows: nat, cols: nat) {
    |g| == rows && forall r :: 0 <= r < rows ==> |g[r]| == cols
  }

  /** Both grids have the screen's shape, the cursor is inside and the scrollback is bounded. */
  predicate CanvasOk(c: Canvas) {
    && 1 <= c.cols <= U16_MAX && 1 <= c.rows <= U16_MAX
    && c.row < c.rows && c.col < c.cols
    && GridOk(c.main, c.rows, c.cols) && GridOk(c.alt, c.rows, c.cols)
    && |c.scrollback| <= MAX_SCROLLBACK
  }

  // ---- text -------------------------------------------------------------------------------------

  function Chars(row: Row): string {
    seq(|row|, i requires 0 <= i < |row| => row[i].ch)
  }

  /** The text of a row, without trailing blanks. */
  function RowText(row: Row): string {
    TrimEnd(Chars(row))
  }

  /** Blank lines are kept only between others, one at a time; the oldest line goes first. */
  function PushLine(scrollback: seq<string>, line: string): seq<string> {
    if !IsBlank(line) || (scrollback != [] && scrollback[|scrollback| - 1] != "") then
      var longer := scrollback + [TrimEnd(line)];
      if |longer| > MAX_SCROLLBACK then longer[1..] else longer
    else scrollback
  }

  lemma PushKeeps(scrollback: seq<string>, line: string)
    requires |scrollback| <= MAX_SCROLLBACK
    ensures |PushLine(scrollback, line)| <= MAX_SCROLLBACK
  {
  }

  // ---- operations on one grid ---------------------------------------------------------------------

  function ScrolledUp(g: Grid, cols: nat): Grid
    requires g != []
  {
    g[1..] + [Blanks(cols)]
  }

  function ScrolledDown(g: Grid, cols: nat): Grid
    requires g != []
  {
    [Blanks(cols)] + g[..|g| - 1]
  }

  /** Columns `from` up to `until` of a row are blanked. */
  function Erased(row: Row, from: nat, until: nat): Row
    requires from <= until <= |row|
  {
    row[..from] + Blanks(until - from) + row[until..]
  }

  function DisplayErased(g: Grid, rows: nat, cols: nat, row: nat, col: nat, mode: nat): Grid
    requires GridOk(g, rows, cols) && row < rows && col < cols
  {
    match mode
    case 0 => g[..row] + [Erased(g[row], col, cols)] + BlankRows(rows - row - 1, cols)
    case 1 => BlankRows(row, cols) + [Erased(g[row], 0, col + 1)] + g[row + 1..]
    case 2 => BlankRows(rows, cols)
    case 3 => BlankRows(rows, cols)
    case _ => g
  }

  function LineErased(g: Grid, rows: nat, cols: nat, row: nat, col: nat, mode: nat): Grid
    requires GridOk(g, rows, cols) && row < rows && col < cols
  {
    match mode
    case 0 => g[row := Erased(g[row], col, cols)]
    case 1 => g[row := Erased(g[row], 0, col + 1)]
    case 2 => g[row := Blanks(cols)]
    case _ => g
  }

  function CharsErased(g: Grid, rows: nat, cols: nat, row: nat, col: nat, n: nat): Grid
    requires GridOk(g, rows, cols) && row < rows && col < cols
  {
    g[row := Erased(g[row], col, Min(col + n, cols))]
  }

  function CharsDeleted(g: Grid, rows: nat, cols: nat, row: nat, col: nat, n: nat): Grid
    requires GridOk(g, rows, cols) && row < rows && col < cols
  {
    var k := Min(n, cols - col);
    g[row := g[row][..col] + g[row][col + k..] + Blanks(k)]
  }

  function CharsInserted(g: Grid, rows: nat, cols: nat, row: nat, col: nat, n: nat): Grid
    requires GridOk(g, rows, cols) && row < rows && col < cols
  {
    var k := Min(n, cols - col);
    g[row := g[row][..col] + Blanks(k) + g[row][col..cols - k]]
  }

  function LinesInserted(g: Grid, rows: nat, cols: nat, row: nat, n: nat): Grid
    requires GridOk(g, rows, cols) && row < rows
  {
    var k := Min(n, rows - row);
    g[..row] + BlankRows(k, cols) + g[row..rows - k]
  }

  function LinesDeleted(g: Grid, rows: nat, cols: nat, row: nat, n: nat): Grid
    requires GridOk(g, rows, cols) && row < rows
  {
    var k := Min(n, rows - row);
    g[..row] + g[row + k..] + BlankRows(k, cols)
  }

  /** A blank cell loses its attributes. */
  function Cleared(g: Grid, rows: nat, cols: nat, row: nat, col: nat): Grid
    requires GridOk(g, rows, cols) && row < rows && col < cols
  {
    if g[row][col].ch == ' ' then g[row := g[row][col := BLANK]] else g
  }

  lemma GridsKeepShape(g: Grid, rows: nat, cols: nat, row: nat, col: nat, n: nat)
    requires GridOk(g, rows, cols) && row < rows && col < cols
    ensures GridOk(ScrolledUp(g, cols), rows, cols) && GridOk(ScrolledDown(g, cols), rows, cols)
    ensures GridOk(LineErased(g, rows, cols, row, col, n), rows, cols)
    ensures GridOk(CharsErased(g, rows, cols, row, col, n), rows, cols)
    ensures GridOk(CharsDeleted(g, rows, cols, row, col, n), rows, cols)
    ensures GridOk(CharsInserted(g, rows, cols, row, col, n), rows, cols)
    ensures GridOk(Cleared(g, rows, cols, row, col), rows, cols)
  {
  }

  lemma CellKeepsShape(g: Grid, rows: nat, cols: nat, row: nat, col: nat, cell: Cell)
    requires GridOk(g, rows, cols) && row < rows && col < cols
    ensures GridOk(g[row := g[row][col := cell]], rows, cols)
  {
  }

  lemma LinesKeepShape(g: Grid, rows: nat, cols: nat, row: nat, col: nat, n: nat)
    requires GridOk(g, rows, cols) && row < rows && col < cols
    ensures GridOk(DisplayErased(g, rows, cols, row, col, n), rows, cols)
    ensures GridOk(LinesInserted(g, rows, cols, row, n), rows, cols)
    ensures GridOk(LinesDeleted(g, rows, cols, row, n), rows, cols)
  {
  }

  // ---- operations on the canvas ---------------------------------------------------------------------

  function Active(c: Canvas): Grid {
    if c.inAlt then c.alt else c.main
  }

  function WithActive(c: Canvas, g: Grid): Canvas {
    if c.inAlt then c.(alt := g) else c.(main := g)
  }

  function ScrollUp(c: Canvas): (d: Canvas)
    requires CanvasOk(c)
    ensures CanvasOk(d)
  {
    hide GridOk, RowText, PushLine, ScrolledUp;
    assert Active(c) != [] && (!c.inAlt ==> c.main != []) by { NonEmpty(c); }
    GridsKeepShape(Active(c), c.rows, c.cols, c.row, c.col, 0);
    if c.inAlt then WithActive(c, ScrolledUp(Active(c), c.cols))
    else
      PushKeeps(c.scrollback, RowText(c.main[0]));
      WithActive(c.(scrollback := PushLine(c.scrollback, RowText(c.main[0]))), ScrolledUp(Active(c), c.cols))
  }

  lemma NonEmpty(c: Canvas)
    requires CanvasOk(c)
    ensures c.main != [] && c.alt != []
  {
  }

  function ScrollDown(c: Canvas): (d: Canvas)
    requires CanvasOk(c)
    ensures CanvasOk(d)
  {
    hide GridOk, ScrolledDown;
    assert Active(c) != [] by { NonEmpty(c); }
    GridsKeepShape(Active(c), c.rows, c.cols, c.row, c.col, 0);
    WithActive(c, ScrolledDown(Active(c), c.cols))
  }

  /** One row up, scrolling down at the top. */
  function ReverseIndex(c: Canvas): (d: Canvas)
    requires CanvasOk(c)
    ensures CanvasOk(d)
  {
    hide GridOk;
    var d := c.(pendingWrap := false);
    if d.row == 0 then ScrollDown(d) else d.(row := d.row - 1)
  }

  function LineFeed(c: Canvas): (d: Canvas)
    requires CanvasOk(c)
    ensures CanvasOk(d)
  {
    hide GridOk, ScrollUp;
    if c.row + 1 >= c.rows then ScrollUp(c) else c.(row := c.row + 1)
  }

  /** Writes a character; the wrap out of the last column waits for the next one. */
  function PutChar(c: Canvas, ch: char): (d: Canvas)
    requires CanvasOk(c)
    ensures CanvasOk(d)
  {
    hide GridOk, LineFeed;
    var at := if c.pendingWrap then LineFeed(c.(pendingWrap := false, col := 0)) else c;
    assert at.row < |Active(at)| && at.col < |Active(at)[at.row]| by { CursorInside(at); }
    CellKeepsShape(Active(at), at.rows, at.cols, at.row, at.col, Cell(ch, at.attrs));
    var written := WithActive(at, Active(at)[at.row := Active(at)[at.row][at.col := Cell(ch, at.attrs)]]);
    if at.col + 1 >= at.cols then written.(pendingWrap := true) else written.(col := at.col + 1)
  }

  lemma CursorInside(c: Canvas)
    requires CanvasOk(c)
    ensures |Active(c)| == c.rows && |Active(c)[c.row]| == c.cols
  {
  }

  function EraseDisplay(c: Canvas, mode: nat): (d: Canvas)
    requires CanvasOk(c)
    ensures CanvasOk(d)
  {
    hide GridOk, DisplayErased;
    LinesKeepShape(Active(c), c.rows, c.cols, c.row, c.col, mode);
    var kept := if mode == 3 && !c.inAlt then c.(scrollback := []) else c;
    WithActive(kept, DisplayErased(Active(c), c.rows, c.cols, c.row, c.col, mode))
  }

  function EraseLine(c: Canvas, mode: nat): (d: Canvas)
    requires CanvasOk(c)
    ensures CanvasOk(d)
  {
    hide GridOk, LineErased;
    GridsKeepShape(Active(c), c.rows, c.cols, c.row, c.col, mode);
    WithActive(c, LineErased(Active(c), c.rows, c.cols, c.row, c.col, mode))
  }

  function EraseChars(c: Canvas, n: nat): (d: Canvas)
    requires CanvasOk(c)
    ensures CanvasOk(d)
  {
    hide GridOk, CharsErased;
    GridsKeepShape(Active(c), c.rows, c.cols, c.row, c.col, n);
    WithActive(c, CharsErased(Active(c), c.rows, c.cols, c.row, c.col, n))
  }

  function DeleteChars(c: Canvas, n: nat): (d: Canvas)
    requires CanvasOk(c)
    ensures CanvasOk(d)
  {
    hide GridOk, CharsDeleted;
    GridsKeepShape(Active(c), c.rows, c.cols, c.row, c.col, n);
    WithActive(c, CharsDeleted(Active(c), c.rows, c.cols, c.row, c.col, n))
  }

  function InsertChars(c: Canvas, n: nat): (d: Canvas)
    requires CanvasOk(c)
    ensures CanvasOk(d)
  {
    hide GridOk, CharsInserted;
    GridsKeepShape(Active(c), c.rows, c.cols, c.row, c.col, n);
    WithActive(c, CharsInserted(Active(c), c.rows, c.cols, c.row, c.col, n))
  }

  function InsertLines(c: Canvas, n: nat): (d: Canvas)
    requires CanvasOk(c)
    ensures CanvasOk(d)
  {
    hide GridOk, LinesInserted;
    LinesKeepShape(Active(c), c.rows, c.cols, c.row, c.col, n);
    WithActive(c, LinesInserted(Active(c), c.rows, c.cols, c.row, n))
  }

  function DeleteLines(c: Canvas, n: nat): (d: Canvas)
    requires CanvasOk(c)
    ensures CanvasOk(d)
  {
    hide GridOk, LinesDeleted;
    LinesKeepShape(Active(c), c.rows, c.cols, c.row, c.col, n);
    WithActive(c, LinesDeleted(Active(c), c.rows, c.cols, c.row, n))
  }

  function ScrollUpBy(c: Canvas, n: nat): (d: Canvas)
    requires CanvasOk(c)
    ensures CanvasOk(d)
  {
    hide CanvasOk, ScrollUp;
    if n == 0 then c else ScrollUp(ScrollUpBy(c, n - 1))
  }

  function ScrollDownBy(c: Canvas, n: nat): (d: Canvas)
    requires CanvasOk(c)
    ensures CanvasOk(d)
  {
    hide CanvasOk, ScrollDown;
    if n == 0 then c else ScrollDown(ScrollDownBy(c, n - 1))
  }

  function Backspace(c: Canvas): (d: Canvas)
    requires CanvasOk(c)
    ensures CanvasOk(d)
  {
    hide GridOk, Cleared;
    var to_ := if c.col > 0 then c.col - 1 else 0;
    GridsKeepShape(Active(c), c.rows, c.cols, c.row, c.col, 0);
    var once := Cleared(Active(c), c.rows, c.cols, c.row, c.col);
    GridsKeepShape(once, c.rows, c.cols, c.row, to_, 0);
    WithActive(c.(pendingWrap := false, col := to_), Cleared(once, c.rows, c.cols, c.row, to_))
  }

  /** Switches to a blank alternate screen, remembering the cursor. */
  function EnterAlt(c: Canvas): (d: Canvas)
    requires CanvasOk(c)
    ensures CanvasOk(d)
  {
    c.(savedRow := c.row, savedCol := c.col, inAlt := true, alt := BlankRows(c.rows, c.cols))
  }

  function RestoreCursor(c: Canvas): (d: Canvas)
    requires CanvasOk(c)
    ensures CanvasOk(d)
  {
    hide GridOk;
    c.(row := Min(c.savedRow, c.rows - 1), col := Min(c.savedCol, c.cols - 1))
  }

  // ---- control sequences ------------------------------------------------------------------------------

  function FirstParam(params: seq<nat>, default_: nat): nat {
    if params == [] then default_ else params[0]
  }

  /** A count: missing and zero both mean one. */
  function Count(params: seq<nat>): nat {
    Max(FirstParam(params, 1), 1)
  }

  /** A one-based coordinate, made zero-based and clamped. */
  function Coordinate(params: seq<nat>, index: nat, size: nat): nat
    requires size >= 1
  {
    Min(Max(if index < |params| then params[index] else 1, 1) - 1, size - 1)
  }

  function MinusClamped(a: nat, n: nat): nat {
    if a >= n then a - n else 0
  }

  function SetMode(c: Canvas, params: seq<nat>): (d: Canvas)
    requires CanvasOk(c)
    ensures CanvasOk(d)
  {
    hide GridOk, EnterAlt;
    if params == [] then c
    else if params[0] == 1049 || params[0] == 47 then EnterAlt(c)
    else if params[0] == 25 then c.(cursorVisible := true)
    else if params[0] == 2004 then c.(bracketedPaste := true)
    else c
  }

  function ResetMode(c: Canvas, params: seq<nat>): (d: Canvas)
    requires CanvasOk(c)
    ensures CanvasOk(d)
  {
    hide GridOk;
    if params == [] then c
    else if params[0] == 1049 || params[0] == 47 then RestoreCursor(c.(inAlt := false))
    else if params[0] == 25 then c.(cursorVisible := false)
    else if params[0] == 2004 then c.(bracketedPaste := false)
    else c
  }

  /** What attribute sequences and operating system commands do to the current attributes. */
  datatype Styling = Styling(sgr: (Attributes, seq<nat>) -> Attributes, osc: (Attributes, seq<nat>) -> Attributes)

  function MoveCursor(c: Canvas, params: seq<nat>, cmd: char): (d: Canvas)
    requires CanvasOk(c)
    ensures CanvasOk(d)
  {
    hide GridOk;
    match cmd
    case 'H' => c.(row := Coordinate(params, 0, c.rows), col := Coordinate(params, 1, c.cols))
    case 'f' => c.(row := Coordinate(params, 0, c.rows), col := Coordinate(params, 1, c.cols))
    case 'A' => c.(row := MinusClamped(c.row, Count(params)))
    case 'B' => c.(row := Min(c.row + Count(params), c.rows - 1))
    case 'C' => c.(col := Min(c.col + Count(params), c.cols - 1))
    case 'D' => c.(col := MinusClamped(c.col, Count(params)))
    case 'E' => c.(row := Min(c.row + Count(params), c.rows - 1), col := 0)
    case 'F' => c.(row := MinusClamped(c.row, Count(params)), col := 0)
    case 'G' => c.(col := Coordinate(params, 0, c.cols))
    case 'd' => c.(row := Coordinate(params, 0, c.rows))
    case _ => c
  }

  /** The commands that erase, insert or delete. */
  function EditGrid(c: Canvas, params: seq<nat>, cmd: char): (d: Canvas)
    requires CanvasOk(c)
    ensures CanvasOk(d)
  {
    hide GridOk;
    match cmd
    case 'J' => EraseDisplay(c, FirstParam(params, 0))
    case 'K' => EraseLine(c, FirstParam(params, 0))
    case 'X' => EraseChars(c, Count(params))
    case 'P' => DeleteChars(c, Count(params))
    case '@' => InsertChars(c, Count(params))
    case 'L' => InsertLines(c, Count(params))
    case 'M' => DeleteLines(c, Count(params))
    case _ => c
  }

  predicate IsEdit(cmd: char) {
    cmd in {'J', 'K', 'X', 'P', '@', 'L', 'M'}
  }

  /** A complete control sequence with final byte `cmd`. */
  function ExecuteCsi(st: Styling, before: Canvas, params: seq<nat>, isPrivate: bool, cmd: char): (d: Canvas)
    requires CanvasOk(before)
    ensures CanvasOk(d)
  {
    hide GridOk;
    var c := if cmd != 'm' then before.(pendingWrap := false) else before;
    if IsEdit(cmd) then EditGrid(c, params, cmd)
    else
      match cmd
      case 'm' => c.(attrs := st.sgr(c.attrs, params))
      case 'h' => if isPrivate then SetMode(c, params) else c
      case 'l' => if isPrivate then ResetMode(c, params) else c
      case 'S' => ScrollUpBy(c, Count(params))
      case 'T' => ScrollDownBy(c, Count(params))
      case _ => MoveCursor(c, params, cmd)
  }

  // ---- resizing -------------------------------------------------------------------------------------------

  function FitRow(row: Row, cols: nat): Row {
    if cols <= |row| then row[..cols] else row + Blanks(cols - |row|)
  }

  function FitGrid(g: Grid, cols: nat, rows: nat): Grid {
    seq(rows, r requires 0 <= r => if r < |g| then FitRow(g[r], cols) else Blanks(cols))
  }

  function Resize(c: Canvas, cols: nat, rows: nat): Canvas
    requires cols >= 1 && rows >= 1
  {
    c.(cols := cols, rows := rows, main := FitGrid(c.main, cols, rows), alt := FitGrid(c.alt, cols, rows),
       row := Min(c.row, rows - 1), col := Min(c.col, cols - 1))
  }

  /** Resizing keeps the canvas in order and every cell that is still inside; the rest is blank. */
  lemma ResizeKeeps(c: Canvas, cols: nat, rows: nat)
    requires CanvasOk(c) && 1 <= cols <= U16_MAX && 1 <= rows <= U16_MAX
    ensures CanvasOk(Resize(c, cols, rows))
    ensures forall y, x :: 0 <= y < rows && 0 <= x < cols ==>
              Resize(c, cols, rows).main[y][x] == (if y < c.rows && x < c.cols then c.main[y][x] else BLANK) &&
              Resize(c, cols, rows).alt[y][x] == (if y < c.rows && x < c.cols then c.alt[y][x] else BLANK)
  {
  }
}
