/** What each control sequence does to a screen, in terms of the canvas alone: where the cursor goes and which
    cell each cell of the screen shown holds afterwards. */
module CanvasLaws {
  import opened Types
  import opened Text
  import opened Canvases
  import opened Layout

  const EMPTY: Cell := Cell(' ', 0)

  /** The screen that is shown. */
  function Shown(c: Canvas): Grid {
    if c.inAlt then c.alt else c.main
  }

  /** A count: missing and zero both mean one. */
  function Asked(params: seq<nat>): nat {
    if params == [] || params[0] == 0 then 1 else params[0]
  }

  /** A mode: missing means zero. */
  function Mode(params: seq<nat>): nat {
    if params == [] then 0 else params[0]
  }

  /** A one-based coordinate as an index: missing and zero both mean the first. */
  function Index(params: seq<nat>, k: nat): nat {
    if k >= |params| || params[k] == 0 then 0 else params[k] - 1
  }

  /** Only the cursor and the waiting wrap differ. */
  ghost predicate CursorAt(c: Canvas, d: Canvas, row: nat, col: nat) {
    d == c.(row := row, col := col, pendingWrap := false)
  }

  /** Only the screen shown and the waiting wrap differ; the other screen stays. */
  ghost predicate Redrawn(c: Canvas, d: Canvas) {
    && CanvasOk(d)
    && d == c.(pendingWrap := false, main := d.main, alt := d.alt)
    && (if c.inAlt then d.main == c.main else d.alt == c.alt)
  }

  // ---- cursor movement -----------------------------------------------------------------------------------

  lemma MovesOnly(st: Styling, c: Canvas, params: seq<nat>, isPrivate: bool, cmd: char)
    requires CanvasOk(c) && cmd in {'A', 'B', 'C', 'D', 'E', 'F', 'G', 'H', 'f', 'd'}
    ensures ExecuteCsi(st, c, params, isPrivate, cmd) == MoveCursor(c.(pendingWrap := false), params, cmd)
  {
    hide GridOk, MoveCursor, EditGrid, SetMode, ResetMode;
  }

  lemma UpAndDown(st: Styling, c: Canvas, params: seq<nat>, isPrivate: bool)
    requires CanvasOk(c)
    ensures var n := Asked(params);
            var up := if n <= c.row then c.row - n else 0;
            var down := if c.row + n < c.rows then c.row + n else c.rows - 1;
            && CursorAt(c, ExecuteCsi(st, c, params, isPrivate, 'A'), up, c.col)
            && CursorAt(c, ExecuteCsi(st, c, params, isPrivate, 'B'), down, c.col)
  {
    hide GridOk, ExecuteCsi;
    MovesOnly(st, c, params, isPrivate, 'A');
    MovesOnly(st, c, params, isPrivate, 'B');
  }

  lemma Sideways(st: Styling, c: Canvas, params: seq<nat>, isPrivate: bool)
    requires CanvasOk(c)
    ensures var n := Asked(params);
            var left := if n <= c.col then c.col - n else 0;
            var right := if c.col + n < c.cols then c.col + n else c.cols - 1;
            && CursorAt(c, ExecuteCsi(st, c, params, isPrivate, 'C'), c.row, right)
            && CursorAt(c, ExecuteCsi(st, c, params, isPrivate, 'D'), c.row, left)
  {
    hide GridOk, ExecuteCsi;
    MovesOnly(st, c, params, isPrivate, 'C');
    MovesOnly(st, c, params, isPrivate, 'D');
  }

  lemma ToLines(st: Styling, c: Canvas, params: seq<nat>, isPrivate: bool)
    requires CanvasOk(c)
    ensures var n := Asked(params);
            var up := if n <= c.row then c.row - n else 0;
            var down := if c.row + n < c.rows then c.row + n else c.rows - 1;
            && CursorAt(c, ExecuteCsi(st, c, params, isPrivate, 'E'), down, 0)
            && CursorAt(c, ExecuteCsi(st, c, params, isPrivate, 'F'), up, 0)
  {
    hide GridOk, ExecuteCsi;
    MovesOnly(st, c, params, isPrivate, 'E');
    MovesOnly(st, c, params, isPrivate, 'F');
  }

  /** Up, down, right, left, and to the start of a line below or above: the distance asked for, up to the edge. */
  lemma CursorMoves(st: Styling, c: Canvas, params: seq<nat>, isPrivate: bool)
    requires CanvasOk(c)
    ensures var n := Asked(params);
            var up, left := if n <= c.row then c.row - n else 0, if n <= c.col then c.col - n else 0;
            var down := if c.row + n < c.rows then c.row + n else c.rows - 1;
            var right := if c.col + n < c.cols then c.col + n else c.cols - 1;
            && CursorAt(c, ExecuteCsi(st, c, params, isPrivate, 'A'), up, c.col)
            && CursorAt(c, ExecuteCsi(st, c, params, isPrivate, 'B'), down, c.col)
            && CursorAt(c, ExecuteCsi(st, c, params, isPrivate, 'C'), c.row, right)
            && CursorAt(c, ExecuteCsi(st, c, params, isPrivate, 'D'), c.row, left)
            && CursorAt(c, ExecuteCsi(st, c, params, isPrivate, 'E'), down, 0)
            && CursorAt(c, ExecuteCsi(st, c, params, isPrivate, 'F'), up, 0)
  {
    hide CanvasOk, GridOk, ExecuteCsi;
    UpAndDown(st, c, params, isPrivate);
    Sideways(st, c, params, isPrivate);
    ToLines(st, c, params, isPrivate);
  }

  lemma Inside(c: Canvas)
    requires CanvasOk(c)
    ensures c.row < c.rows && c.col < c.cols && |Shown(c)| == c.rows
    ensures forall y :: 0 <= y < c.rows ==> |Shown(c)[y]| == c.cols
  {
  }

  /** To a coordinate, at most the last one. */
  lemma CursorPlaced(st: Styling, c: Canvas, params: seq<nat>, isPrivate: bool)
    requires CanvasOk(c)
    ensures var row := if Index(params, 0) < c.rows then Index(params, 0) else c.rows - 1;
            var col := if Index(params, 1) < c.cols then Index(params, 1) else c.cols - 1;
            && CursorAt(c, ExecuteCsi(st, c, params, isPrivate, 'H'), row, col)
            && CursorAt(c, ExecuteCsi(st, c, params, isPrivate, 'f'), row, col)
            && CursorAt(c, ExecuteCsi(st, c, params, isPrivate, 'd'), row, c.col)
            && (var x := if Index(params, 0) < c.cols then Index(params, 0) else c.cols - 1;
                CursorAt(c, ExecuteCsi(st, c, params, isPrivate, 'G'), c.row, x))
  {
    hide GridOk, ExecuteCsi;
    MovesOnly(st, c, params, isPrivate, 'H');
    MovesOnly(st, c, params, isPrivate, 'f');
    MovesOnly(st, c, params, isPrivate, 'd');
    MovesOnly(st, c, params, isPrivate, 'G');
  }

  /** Away from the edges, up undoes down and left undoes right, and the other way round. */
  lemma MovesUndone(st: Styling, c: Canvas, params: seq<nat>, isPrivate: bool)
    requires CanvasOk(c)
    ensures var n := Asked(params);
            && (c.row + n < c.rows ==>
                  CursorAt(c, ExecuteCsi(st, ExecuteCsi(st, c, params, isPrivate, 'B'), params, isPrivate, 'A'), c.row, c.col))
            && (n <= c.row ==>
                  CursorAt(c, ExecuteCsi(st, ExecuteCsi(st, c, params, isPrivate, 'A'), params, isPrivate, 'B'), c.row, c.col))
            && (c.col + n < c.cols ==>
                  CursorAt(c, ExecuteCsi(st, ExecuteCsi(st, c, params, isPrivate, 'C'), params, isPrivate, 'D'), c.row, c.col))
            && (n <= c.col ==>
                  CursorAt(c, ExecuteCsi(st, ExecuteCsi(st, c, params, isPrivate, 'D'), params, isPrivate, 'C'), c.row, c.col))
  {
    hide CanvasOk, GridOk, ExecuteCsi;
    assert c.row < c.rows && c.col < c.cols by { Inside(c); }
    CursorMoves(st, c, params, isPrivate);
    CursorMoves(st, ExecuteCsi(st, c, params, isPrivate, 'A'), params, isPrivate);
    CursorMoves(st, ExecuteCsi(st, c, params, isPrivate, 'B'), params, isPrivate);
    CursorMoves(st, ExecuteCsi(st, c, params, isPrivate, 'C'), params, isPrivate);
    CursorMoves(st, ExecuteCsi(st, c, params, isPrivate, 'D'), params, isPrivate);
  }

  // ---- erasing, inserting, deleting and scrolling ----------------------------------------------------------

  datatype Edit =
    | EraseInDisplay(mode: nat) | EraseInLine(mode: nat) | EraseCells(n: nat)
    | DropCells(n: nat) | AddCells(n: nat)
    | AddRows(n: nat) | DropRows(n: nat)
    | RollUp(n: nat) | RollDown(n: nat)

  predicate DisplayBlanks(c: Canvas, mode: nat, y: nat, x: nat) {
    match mode
    case 0 => y > c.row || (y == c.row && x >= c.col)
    case 1 => y < c.row || (y == c.row && x <= c.col)
    case _ => mode == 2 || mode == 3
  }

  predicate LineBlanks(c: Canvas, mode: nat, x: nat) {
    match mode
    case 0 => x >= c.col
    case 1 => x <= c.col
    case _ => mode == 2
  }

  /** The cell that an edit leaves at row `y` and column `x` of the screen shown. */
  function CellAfter(c: Canvas, e: Edit, y: nat, x: nat): Cell
    requires CanvasOk(c) && y < c.rows && x < c.cols
  {
    var g := Shown(c);
    match e
    case EraseInDisplay(mode) => if DisplayBlanks(c, mode, y, x) then EMPTY else g[y][x]
    case EraseInLine(mode) => if y == c.row && LineBlanks(c, mode, x) then EMPTY else g[y][x]
    case EraseCells(n) => if y == c.row && c.col <= x < c.col + n then EMPTY else g[y][x]
    case DropCells(n) =>
      if y != c.row || x < c.col then g[y][x] else if x + n < c.cols then g[y][x + n] else EMPTY
    case AddCells(n) =>
      if y != c.row || x < c.col then g[y][x] else if x < c.col + n then EMPTY else g[y][x - n]
    case AddRows(n) => if y < c.row then g[y][x] else if y < c.row + n then EMPTY else g[y - n][x]
    case DropRows(n) => if y < c.row then g[y][x] else if y + n < c.rows then g[y + n][x] else EMPTY
    case RollUp(n) => if y + n < c.rows then g[y + n][x] else EMPTY
    case RollDown(n) => if y < n then EMPTY else g[y - n][x]
  }

  /** This grid holds what the edit leaves. */
  ghost predicate Holds(c: Canvas, e: Edit, g: Grid)
    requires CanvasOk(c)
  {
    && GridOk(g, c.rows, c.cols)
    && forall y: nat, x: nat :: y < c.rows && x < c.cols ==> g[y][x] == CellAfter(c, e, y, x)
  }

  /** Only the screen shown and the waiting wrap differ, and it holds what the edit leaves. */
  ghost predicate Edits(c: Canvas, e: Edit, d: Canvas)
    requires CanvasOk(c)
  {
    Redrawn(c, d) && Holds(c, e, Shown(d))
  }

  lemma ErasedHolds(c: Canvas, mode: nat, n: nat)
    requires CanvasOk(c)
    ensures Holds(c, EraseInDisplay(mode), DisplayErased(Shown(c), c.rows, c.cols, c.row, c.col, mode))
    ensures Holds(c, EraseInLine(mode), LineErased(Shown(c), c.rows, c.cols, c.row, c.col, mode))
    ensures Holds(c, EraseCells(n), CharsErased(Shown(c), c.rows, c.cols, c.row, c.col, n))
  {
  }

  lemma CellsHold(c: Canvas, n: nat)
    requires CanvasOk(c)
    ensures Holds(c, DropCells(n), CharsDeleted(Shown(c), c.rows, c.cols, c.row, c.col, n))
    ensures Holds(c, AddCells(n), CharsInserted(Shown(c), c.rows, c.cols, c.row, c.col, n))
  {
  }

  lemma RowsDropped(c: Canvas, n: nat)
    requires CanvasOk(c)
    ensures Holds(c, DropRows(n), LinesDeleted(Shown(c), c.rows, c.cols, c.row, n))
  {
  }

  lemma RowsAdded(c: Canvas, n: nat)
    requires CanvasOk(c)
    ensures Holds(c, AddRows(n), LinesInserted(Shown(c), c.rows, c.cols, c.row, n))
  {
  }

  lemma RollsHold(c: Canvas, n: nat)
    requires CanvasOk(c)
    ensures Holds(c, RollUp(n), ShiftedUp(Shown(c), c.cols, n)) && Holds(c, RollDown(n), ShiftedDown(Shown(c), c.cols, n))
  {
  }

  lemma EditsOnly(st: Styling, c: Canvas, params: seq<nat>, isPrivate: bool, cmd: char)
    requires CanvasOk(c) && IsEdit(cmd)
    ensures ExecuteCsi(st, c, params, isPrivate, cmd) == EditGrid(c.(pendingWrap := false), params, cmd)
  {
    hide GridOk, MoveCursor, EditGrid;
  }

  /** Erasing blanks exactly the cells after the cursor, before it or all, of the display or of the line, or as
      many as asked for. Mode 3 on the main screen clears the scrollback too. */
  lemma Erases(st: Styling, c: Canvas, params: seq<nat>, isPrivate: bool)
    requires CanvasOk(c)
    ensures Edits(if Mode(params) == 3 && !c.inAlt then c.(scrollback := []) else c, EraseInDisplay(Mode(params)),
                  ExecuteCsi(st, c, params, isPrivate, 'J'))
    ensures Edits(c, EraseInLine(Mode(params)), ExecuteCsi(st, c, params, isPrivate, 'K'))
    ensures Edits(c, EraseCells(Asked(params)), ExecuteCsi(st, c, params, isPrivate, 'X'))
  {
    hide GridOk, ExecuteCsi, DisplayErased, LineErased, CharsErased, Holds;
    ErasedHolds(c, Mode(params), Asked(params));
    ErasedHolds(c.(scrollback := []), Mode(params), Asked(params));
    EditsOnly(st, c, params, isPrivate, 'J');
    EditsOnly(st, c, params, isPrivate, 'K');
    EditsOnly(st, c, params, isPrivate, 'X');
  }

  /** Deleting and inserting cells shifts the rest of the line; deleting and inserting lines shifts the lines from
      the cursor's on. What leaves the screen is gone, and what comes in is blank. */
  lemma Shifts(st: Styling, c: Canvas, params: seq<nat>, isPrivate: bool)
    requires CanvasOk(c)
    ensures Edits(c, DropCells(Asked(params)), ExecuteCsi(st, c, params, isPrivate, 'P'))
    ensures Edits(c, AddCells(Asked(params)), ExecuteCsi(st, c, params, isPrivate, '@'))
    ensures Edits(c, AddRows(Asked(params)), ExecuteCsi(st, c, params, isPrivate, 'L'))
    ensures Edits(c, DropRows(Asked(params)), ExecuteCsi(st, c, params, isPrivate, 'M'))
  {
    hide GridOk, ExecuteCsi, CharsDeleted, CharsInserted, LinesInserted, LinesDeleted, Holds;
    CellsHold(c, Asked(params));
    RowsDropped(c, Asked(params));
    RowsAdded(c, Asked(params));
    EditsOnly(st, c, params, isPrivate, 'P');
    EditsOnly(st, c, params, isPrivate, '@');
    EditsOnly(st, c, params, isPrivate, 'L');
    EditsOnly(st, c, params, isPrivate, 'M');
  }

  lemma RollsOnly(st: Styling, c: Canvas, params: seq<nat>, isPrivate: bool)
    requires CanvasOk(c)
    ensures ExecuteCsi(st, c, params, isPrivate, 'S') == ScrollUpBy(c.(pendingWrap := false), Asked(params))
    ensures ExecuteCsi(st, c, params, isPrivate, 'T') == ScrollDownBy(c.(pendingWrap := false), Asked(params))
  {
    hide GridOk, MoveCursor, EditGrid, ScrollUpBy, ScrollDownBy;
  }

  /** Scrolling moves every line, and leaves the cursor where it is; only scrolling up the main screen changes the
      scrollback. */
  lemma Rolls(st: Styling, c: Canvas, params: seq<nat>, isPrivate: bool)
    requires CanvasOk(c)
    ensures var d := ExecuteCsi(st, c, params, isPrivate, 'S');
            Edits(c.(scrollback := d.scrollback), RollUp(Asked(params)), d) && (c.inAlt ==> d.scrollback == c.scrollback)
    ensures Edits(c, RollDown(Asked(params)), ExecuteCsi(st, c, params, isPrivate, 'T'))
  {
    hide GridOk, ExecuteCsi, ScrollUpBy, ScrollDownBy, ShiftedUp, ShiftedDown, Holds;
    var d, e := ExecuteCsi(st, c, params, isPrivate, 'S'), c.(pendingWrap := false);
    RollsOnly(st, c, params, isPrivate);
    ScrollByIsSlice(e, Asked(params));
    RollsHold(c, Asked(params));
    RollsHold(c.(scrollback := d.scrollback), Asked(params));
    AltKeepsScrollback(e, Asked(params));
  }

  lemma {:induction false} AltKeepsScrollback(c: Canvas, n: nat)
    requires CanvasOk(c)
    ensures c.inAlt ==> ScrollUpBy(c, n).inAlt && ScrollUpBy(c, n).scrollback == c.scrollback
  {
    hide CanvasOk, RowText, PushLine, ScrolledUp;
    if n > 0 {
      AltKeepsScrollback(c, n - 1);
    }
  }

  /** A line that scrolls off the top of the main screen enters the scrollback without its trailing blanks; a
      blank line only after a line that is not. The oldest line leaves when there are 2000. */
  predicate Remembers(before: seq<string>, line: string, after: seq<string>) {
    if TrimEnd(line) == "" && (before == [] || before[|before| - 1] == "") then after == before
    else if |before| < 2000 then after == before + [TrimEnd(line)]
    else after == before[1..] + [TrimEnd(line)]
  }

  /** Trimming drops the longest end of white space and nothing else. */
  lemma {:induction false} TrimmedExactly(s: string)
    ensures TrimEnd(s) <= s && (TrimEnd(s) != "" ==> !IsWhitespace(TrimEnd(s)[|TrimEnd(s)| - 1]))
    ensures forall i :: |TrimEnd(s)| <= i < |s| ==> IsWhitespace(s[i])
  {
    if s != "" && IsWhitespace(s[|s| - 1]) {
      TrimmedExactly(s[..|s| - 1]);
    }
  }

  function TopLine(c: Canvas): string
    requires CanvasOk(c)
  {
    seq(c.cols, x requires 0 <= x < c.cols => c.main[0][x].ch)
  }

  /** Scrolling up by a number is scrolling up by one that often, and each such step remembers the top line. */
  lemma RollsOneByOne(st: Styling, c: Canvas, n: nat, isPrivate: bool)
    requires CanvasOk(c) && n > 0
    ensures !c.inAlt ==> Remembers(c.scrollback, TopLine(c), ExecuteCsi(st, c, [1], isPrivate, 'S').scrollback)
    ensures ExecuteCsi(st, c, [n + 1], isPrivate, 'S') ==
            ExecuteCsi(st, ExecuteCsi(st, c, [n], isPrivate, 'S'), [1], isPrivate, 'S')
  {
    hide GridOk, ExecuteCsi, ScrollUp;
    RollsOnly(st, c, [1], isPrivate);
    RollsOnly(st, c, [n + 1], isPrivate);
    RollsOnly(st, c, [n], isPrivate);
    var d := ExecuteCsi(st, c, [n], isPrivate, 'S');
    RollsOnly(st, d, [1], isPrivate);
    var e := c.(pendingWrap := false);
    UnwrappedStays(e, n);
    assert ScrollUpBy(e, 1) == ScrollUp(ScrollUpBy(e, 0)) == ScrollUp(e);
    assert ScrollUpBy(d.(pendingWrap := false), 1) == ScrollUp(ScrollUpBy(d.(pendingWrap := false), 0));
    TopRemembered(e);
  }

  lemma {:induction false} UnwrappedStays(c: Canvas, n: nat)
    requires CanvasOk(c)
    ensures ScrollUpBy(c, n).pendingWrap == c.pendingWrap
  {
    hide CanvasOk, RowText, PushLine, ScrolledUp;
    if n > 0 {
      UnwrappedStays(c, n - 1);
    }
  }

  lemma TopRemembered(c: Canvas)
    requires CanvasOk(c)
    ensures !c.inAlt ==> Remembers(c.scrollback, TopLine(c), ScrollUp(c).scrollback)
  {
    assert |c.main| == c.rows && |c.main[0]| == c.cols;
    assert TopLine(c) == Chars(c.main[0]);
    TrimEndTwice(TopLine(c));
  }

  // ---- modes and the rest ----------------------------------------------------------------------------------

  /** Entering the alternate screen shows a blank one and saves the cursor; leaving it shows the main screen and
      puts the cursor where it was saved. */
  lemma ScreensSwitch(st: Styling, c: Canvas, params: seq<nat>)
    requires CanvasOk(c) && params != [] && (params[0] == 1049 || params[0] == 47)
    ensures var d := ExecuteCsi(st, c, params, true, 'h');
            && d == c.(pendingWrap := false, savedRow := c.row, savedCol := c.col, inAlt := true, alt := d.alt)
            && GridOk(d.alt, c.rows, c.cols) && forall y, x :: 0 <= y < c.rows && 0 <= x < c.cols ==> d.alt[y][x] == EMPTY
    ensures ExecuteCsi(st, c, params, true, 'l')
         == c.(pendingWrap := false, inAlt := false, row := if c.savedRow < c.rows then c.savedRow else c.rows - 1,
               col := if c.savedCol < c.cols then c.savedCol else c.cols - 1)
  {
    hide MoveCursor, EditGrid;
  }

  lemma SwitchesSet(st: Styling, c: Canvas, params: seq<nat>)
    requires CanvasOk(c) && params != []
    ensures params[0] == 25 ==>
              && ExecuteCsi(st, c, params, true, 'h') == c.(pendingWrap := false, cursorVisible := true)
              && ExecuteCsi(st, c, params, true, 'l') == c.(pendingWrap := false, cursorVisible := false)
    ensures params[0] == 2004 ==>
              && ExecuteCsi(st, c, params, true, 'h') == c.(pendingWrap := false, bracketedPaste := true)
              && ExecuteCsi(st, c, params, true, 'l') == c.(pendingWrap := false, bracketedPaste := false)
  {
    hide GridOk, MoveCursor, EditGrid;
  }

  /** Whether a sequence means nothing to the screen. */
  predicate Unknown(params: seq<nat>, isPrivate: bool, cmd: char) {
    if cmd == 'h' || cmd == 'l' then !isPrivate || params == [] || params[0] !in {25, 47, 1049, 2004}
    else cmd !in {'A', 'B', 'C', 'D', 'E', 'F', 'G', 'H', 'J', 'K', 'L', 'M', 'P', 'S', 'T', 'X', '@', 'd', 'f', 'm'}
  }

  /** Attributes change by attribute sequences alone, which keep the waiting wrap; every other sequence ends it,
      and an unknown one does nothing else. */
  lemma OthersLeave(st: Styling, c: Canvas, params: seq<nat>, isPrivate: bool, cmd: char)
    requires CanvasOk(c)
    ensures cmd == 'm' ==> ExecuteCsi(st, c, params, isPrivate, cmd) == c.(attrs := st.sgr(c.attrs, params))
    ensures Unknown(params, isPrivate, cmd) ==> CursorAt(c, ExecuteCsi(st, c, params, isPrivate, cmd), c.row, c.col)
  {
    hide GridOk, EditGrid, EnterAlt, RestoreCursor, ScrollUpBy, ScrollDownBy;
  }
}
