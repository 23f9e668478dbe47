/** Where text ends up: the grid, the cursor, the deferred wrap and the scrollback after writing any
    text to a fresh screen, in closed form. */
module Layout {
  import opened Types
  import opened Text
  import opened Canvases

  /** Writes every character of a text. */
  function PutAll(c: Canvas, text: string): (d: Canvas)
    requires CanvasOk(c)
    ensures CanvasOk(d)
  {
    hide CanvasOk, PutChar;
    if text == "" then c else PutChar(PutAll(c, text[..|text| - 1]), text[|text| - 1])
  }

  /** The cell at a line and column when the text is cut into lines of `cols` characters. */
  function CellAt(text: string, cols: nat, line: nat, x: nat, attrs: Attributes): Cell {
    if line * cols + x < |text| then Cell(text[line * cols + x], attrs) else BLANK
  }

  /** The visible grid when the first `k` lines have scrolled off. */
  function GridFor(text: string, cols: nat, rows: nat, k: nat, attrs: Attributes): Grid {
    seq(rows, r requires 0 <= r => seq(cols, x requires 0 <= x => CellAt(text, cols, r + k, x, attrs)))
  }

  /** Line `j` of the text. */
  function Line(text: string, cols: nat, j: nat): string {
    if j * cols >= |text| then "" else if (j + 1) * cols <= |text| then text[j * cols..(j + 1) * cols] else text[j * cols..]
  }

  /** The scrollback when the first `k` lines have scrolled off. */
  function Scrolled(text: string, cols: nat, k: nat): seq<string> {
    if k == 0 then [] else PushLine(Scrolled(text, cols, k - 1), TrimEnd(Line(text, cols, k - 1)))
  }

  /** The canvas after `text`, whose last character is the `m`-th of line `q`. */
  function LaidOut(text: string, cols: nat, rows: nat, attrs: Attributes, q: nat, m: nat): Canvas
    requires cols >= 1 && rows >= 1 && m <= cols
  {
    var k := if q >= rows then q - (rows - 1) else 0;
    Canvas(cols, rows, q - k, if m == cols then cols - 1 else m, 0, 0, false, true, false,
           GridFor(text, cols, rows, k, attrs), BlankRows(rows, cols), Scrolled(text, cols, k), attrs, m == cols)
  }

  // ---- arithmetic of lines ------------------------------------------------------------------------

  lemma LineOrder(cols: nat, a: nat, b: nat)
    requires a <= b
    ensures a * cols <= b * cols
  {
  }

  /** A position determines its line and column. */
  lemma PositionUnique(cols: nat, a: nat, x: nat, b: nat, y: nat)
    requires x < cols && y < cols && a * cols + x == b * cols + y
    ensures a == b && x == y
  {
    if a < b {
      LineOrder(cols, a + 1, b);
    } else if b < a {
      LineOrder(cols, b + 1, a);
    }
  }

  // ---- one character --------------------------------------------------------------------------------

  lemma GridForCell(text: string, cols: nat, rows: nat, k: nat, attrs: Attributes, r: nat, x: nat)
    requires r < rows && x < cols
    ensures GridFor(text, cols, rows, k, attrs)[r][x] == CellAt(text, cols, r + k, x, attrs)
    ensures |GridFor(text, cols, rows, k, attrs)| == rows && |GridFor(text, cols, rows, k, attrs)[r]| == cols
  {
  }

  /** Appending a character changes exactly its own cell. */
  lemma GridForAppend(text: string, cols: nat, rows: nat, k: nat, attrs: Attributes, ch: char, line: nat, x: nat)
    requires line * cols + x == |text| && x < cols && k <= line < rows + k
    ensures var g := GridFor(text, cols, rows, k, attrs);
            && |g| == rows && |g[line - k]| == cols
            && GridFor(text + [ch], cols, rows, k, attrs) == g[line - k := g[line - k][x := Cell(ch, attrs)]]
  {
    hide GridFor, CellAt;
    var g, g' := GridFor(text, cols, rows, k, attrs), GridFor(text + [ch], cols, rows, k, attrs);
    GridShape(text, cols, rows, k, attrs);
    GridShape(text + [ch], cols, rows, k, attrs);
    var h := g[line - k := g[line - k][x := Cell(ch, attrs)]];
    forall r | 0 <= r < rows ensures g'[r] == h[r] {
      forall y | 0 <= y < cols ensures g'[r][y] == h[r][y] {
        GridForCell(text, cols, rows, k, attrs, r, y);
        GridForCell(text + [ch], cols, rows, k, attrs, r, y);
        CellAfterAppend(text, cols, attrs, ch, line, x, r + k, y);
      }
      assert g'[r] == h[r];
    }
    assert g' == h;
  }

  lemma GridShape(text: string, cols: nat, rows: nat, k: nat, attrs: Attributes)
    ensures var g := GridFor(text, cols, rows, k, attrs); |g| == rows && forall r :: 0 <= r < rows ==> |g[r]| == cols
  {
  }

  lemma CellAfterAppend(text: string, cols: nat, attrs: Attributes, ch: char, line: nat, x: nat, at: nat, y: nat)
    requires line * cols + x == |text| && x < cols && y < cols
    ensures CellAt(text + [ch], cols, at, y, attrs)
         == if at == line && y == x then Cell(ch, attrs) else CellAt(text, cols, at, y, attrs)
  {
    if at * cols + y == |text| {
      PositionUnique(cols, at, y, line, x);
    }
  }

  /** Scrolling moves the window down one line, when the text ends where the window does. */
  lemma GridForScroll(text: string, cols: nat, rows: nat, k: nat, attrs: Attributes)
    requires rows >= 1 && (rows + k) * cols == |text|
    ensures GridFor(text, cols, rows, k, attrs) != []
    ensures ScrolledUp(GridFor(text, cols, rows, k, attrs), cols) == GridFor(text, cols, rows, k + 1, attrs)
  {
    hide GridFor, CellAt;
    GridShape(text, cols, rows, k, attrs);
    GridShape(text, cols, rows, k + 1, attrs);
    var g, g' := ScrolledUp(GridFor(text, cols, rows, k, attrs), cols), GridFor(text, cols, rows, k + 1, attrs);
    forall r | 0 <= r < rows ensures g[r] == g'[r] {
      forall y | 0 <= y < cols ensures g[r][y] == g'[r][y] {
        GridForCell(text, cols, rows, k + 1, attrs, r, y);
        if r + 1 < rows {
          GridForCell(text, cols, rows, k, attrs, r + 1, y);
        } else {
          CellPastEnd(text, cols, attrs, rows + k, y);
        }
      }
      assert |g[r]| == cols;
      assert g[r] == g'[r];
    }
    assert g == g';
  }

  lemma CellPastEnd(text: string, cols: nat, attrs: Attributes, line: nat, y: nat)
    requires line * cols >= |text|
    ensures CellAt(text, cols, line, y, attrs) == BLANK
  {
  }

  /** The top row is the first line that has not scrolled off. */
  lemma TopRowText(text: string, cols: nat, rows: nat, k: nat, attrs: Attributes)
    requires rows >= 1 && (k + 1) * cols <= |text|
    ensures GridFor(text, cols, rows, k, attrs) != []
    ensures Chars(GridFor(text, cols, rows, k, attrs)[0]) == Line(text, cols, k)
  {
    assert k * cols + cols == (k + 1) * cols;
    var top := Chars(GridFor(text, cols, rows, k, attrs)[0]);
    assert |top| == cols && |Line(text, cols, k)| == cols;
    forall x | 0 <= x < cols ensures top[x] == Line(text, cols, k)[x] {
      GridForCell(text, cols, rows, k, attrs, 0, x);
      assert (0 + k) * cols == k * cols;
    }
  }

  /** Lines that are complete do not change when text is appended. */
  lemma {:induction false} ScrolledAppend(text: string, cols: nat, k: nat, ch: char)
    requires k * cols <= |text|
    ensures Scrolled(text + [ch], cols, k) == Scrolled(text, cols, k)
  {
    hide PushLine, TrimEnd;
    if k > 0 {
      assert (k - 1) * cols + cols == k * cols;
      ScrolledAppend(text, cols, k - 1, ch);
      LineAppend(text, cols, k - 1, ch);
    }
  }

  lemma LineAppend(text: string, cols: nat, j: nat, ch: char)
    requires (j + 1) * cols <= |text|
    ensures Line(text + [ch], cols, j) == Line(text, cols, j)
  {
    assert j * cols + cols == (j + 1) * cols;
  }

  /** A character inside a line. */
  lemma PutInLine(text: string, cols: nat, rows: nat, attrs: Attributes, q: nat, m: nat, ch: char)
    requires 1 <= cols <= U16_MAX && 1 <= rows <= U16_MAX && m < cols && |text| == q * cols + m
    requires CanvasOk(LaidOut(text, cols, rows, attrs, q, m))
    ensures PutChar(LaidOut(text, cols, rows, attrs, q, m), ch) == LaidOut(text + [ch], cols, rows, attrs, q, m + 1)
  {
    hide GridFor, Scrolled, GridOk, CanvasOk, LineFeed;
    var k := if q >= rows then q - (rows - 1) else 0;
    GridForAppend(text, cols, rows, k, attrs, ch, q, m);
    LineOrder(cols, k, q);
    ScrolledAppend(text, cols, k, ch);
  }

  /** The wrap that was deferred: the line ends and, at the bottom, the screen scrolls. */
  lemma WrapLine(text: string, cols: nat, rows: nat, attrs: Attributes, q: nat)
    requires 1 <= cols <= U16_MAX && 1 <= rows <= U16_MAX && |text| == q * cols + cols
    requires CanvasOk(LaidOut(text, cols, rows, attrs, q, cols))
    ensures var c := LaidOut(text, cols, rows, attrs, q, cols).(pendingWrap := false, col := 0);
            CanvasOk(c) && LineFeed(c) == LaidOut(text, cols, rows, attrs, q + 1, 0)
  {
    hide GridFor, GridOk, Chars, Line, PushLine, ScrolledUp, TrimEnd;
    var k := if q >= rows then q - (rows - 1) else 0;
    if q + 1 >= rows {
      assert rows + k == q + 1 && (rows + k) * cols == |text|;
      GridForScroll(text, cols, rows, k, attrs);
      LineOrder(cols, k + 1, q + 1);
      TopRowText(text, cols, rows, k, attrs);
    }
  }

  lemma PutOnNextLine(text: string, cols: nat, rows: nat, attrs: Attributes, q: nat, ch: char)
    requires 1 <= cols <= U16_MAX && 1 <= rows <= U16_MAX && |text| == q * cols + cols
    requires CanvasOk(LaidOut(text, cols, rows, attrs, q, cols))
    ensures PutChar(LaidOut(text, cols, rows, attrs, q, cols), ch) == LaidOut(text + [ch], cols, rows, attrs, q + 1, 1)
  {
    hide GridFor, Scrolled, GridOk, CanvasOk, LineFeed;
    WrapLine(text, cols, rows, attrs, q);
    var at := LaidOut(text, cols, rows, attrs, q + 1, 0);
    assert |text| == (q + 1) * cols;
    PutInLine(text, cols, rows, attrs, q + 1, 0, ch);
    assert !at.pendingWrap;
  }

  // ---- whole texts ------------------------------------------------------------------------------------

  function Start(cols: nat, rows: nat, attrs: Attributes): Canvas {
    NewCanvas(cols, rows).(attrs := attrs)
  }

  lemma StartLaidOut(cols: nat, rows: nat, attrs: Attributes)
    requires cols >= 1 && rows >= 1
    ensures Start(cols, rows, attrs) == LaidOut("", cols, rows, attrs, 0, 0)
  {
    var g := GridFor("", cols, rows, 0, attrs);
    forall r | 0 <= r < rows ensures g[r] == Blanks(cols) {
      assert forall x :: 0 <= x < cols ==> g[r][x] == BLANK;
    }
    assert g == BlankRows(rows, cols);
  }

  /** Line and column of the last of `n` characters; the column counts from one. */
  function LastLine(n: nat, cols: nat): nat
    requires cols >= 1
  {
    if n == 0 then 0 else (n - 1) / cols
  }

  function LastColumn(n: nat, cols: nat): nat
    requires cols >= 1
  {
    if n == 0 then 0 else (n - 1) % cols + 1
  }

  lemma LastPosition(n: nat, cols: nat)
    requires cols >= 1
    ensures n == LastLine(n, cols) * cols + LastColumn(n, cols) && LastColumn(n, cols) <= cols
    ensures LastLine(n + 1, cols) == if LastColumn(n, cols) == cols then LastLine(n, cols) + 1 else LastLine(n, cols)
    ensures LastColumn(n + 1, cols) == if LastColumn(n, cols) == cols then 1 else LastColumn(n, cols) + 1
  {
    if n > 0 {
      NextPosition(n, cols);
    } else {
      assert 0 / cols == 0 && 0 % cols == 0;
    }
  }

  lemma NextPosition(n: nat, cols: nat)
    requires n > 0 && cols >= 1
    ensures var q, m := (n - 1) / cols, (n - 1) % cols;
            && n - 1 == q * cols + m && 0 <= m < cols
            && if m + 1 == cols then n / cols == q + 1 && n % cols == 0 else n / cols == q && n % cols == m + 1
  {
    DivMod(n - 1, cols);
    DivMod(n, cols);
    NextDigits(cols, (n - 1) / cols, (n - 1) % cols, n / cols, n % cols);
  }

  lemma NextDigits(cols: nat, q: nat, m: nat, a: nat, x: nat)
    requires m < cols && x < cols && a * cols + x == q * cols + m + 1
    ensures if m + 1 == cols then a == q + 1 && x == 0 else a == q && x == m + 1
  {
    if m + 1 == cols {
      assert (q + 1) * cols == q * cols + cols;
      PositionUnique(cols, a, x, q + 1, 0);
    } else {
      PositionUnique(cols, a, x, q, m + 1);
    }
  }

  lemma DivMod(a: int, b: nat)
    requires b >= 1
    ensures a == a / b * b + a % b && 0 <= a % b < b
  {
  }

  /** Text layout. Writing any text to a fresh screen leaves character `(r + k) * cols + x` at row `r`
      and column `x`, where `k` lines have scrolled off; leaves the cursor after the last character, or
      on it with the wrap deferred when it is in the last column; and leaves in the scrollback what
      pushing the first `k` lines leaves. */
  lemma {:induction false} TextLayout(cols: nat, rows: nat, attrs: Attributes, text: string)
    requires 1 <= cols <= U16_MAX && 1 <= rows <= U16_MAX
    ensures LastColumn(|text|, cols) <= cols
    ensures CanvasOk(Start(cols, rows, attrs))
    ensures PutAll(Start(cols, rows, attrs), text)
         == LaidOut(text, cols, rows, attrs, LastLine(|text|, cols), LastColumn(|text|, cols))
  {
    hide GridFor, Scrolled, PutChar, LaidOut, LastLine, LastColumn, CanvasOk;
    assert CanvasOk(Start(cols, rows, attrs)) by { StartOk(cols, rows, attrs); }
    LastPosition(|text|, cols);
    if text == "" {
      StartLaidOut(cols, rows, attrs);
      assert LastLine(0, cols) == 0 && LastColumn(0, cols) == 0 by { AtStart(cols); }
    } else {
      var init, ch := text[..|text| - 1], text[|text| - 1];
      TextLayout(cols, rows, attrs, init);
      LastPosition(|init|, cols);
      var q, m := LastLine(|init|, cols), LastColumn(|init|, cols);
      assert init + [ch] == text;
      if m == cols {
        PutOnNextLine(init, cols, rows, attrs, q, ch);
      } else {
        PutInLine(init, cols, rows, attrs, q, m, ch);
      }
    }
  }

  lemma StartOk(cols: nat, rows: nat, attrs: Attributes)
    requires 1 <= cols <= U16_MAX && 1 <= rows <= U16_MAX
    ensures CanvasOk(Start(cols, rows, attrs))
  {
  }

  lemma AtStart(cols: nat)
    requires cols >= 1
    ensures LastLine(0, cols) == 0 && LastColumn(0, cols) == 0
  {
  }

  // ---- reading the text back ----------------------------------------------------------------------------

  lemma {:induction false} TrimEndIgnoresSpaces(s: string, n: nat)
    ensures TrimEnd(s + seq(n, _ => ' ')) == TrimEnd(s)
  {
    if n == 0 {
      assert s + seq(0, _ => ' ') == s;
    } else {
      var padded := s + seq(n, _ => ' ');
      assert padded[..|padded| - 1] == s + seq(n - 1, _ => ' ');
      TrimEndIgnoresSpaces(s, n - 1);
    }
  }

  lemma {:induction false} TrimEndTwice(s: string)
    ensures TrimEnd(TrimEnd(s)) == TrimEnd(s)
    ensures IsBlank(TrimEnd(s)) <==> IsBlank(s)
    ensures TrimEnd(s) == "" <==> IsBlank(s)
  {
    if s != "" && IsWhitespace(s[|s| - 1]) {
      TrimEndTwice(s[..|s| - 1]);
      assert s == s[..|s| - 1] + [s[|s| - 1]];
    } else if s != "" {
      assert s[|s| - 1] in s;
    }
  }

  lemma RowIsLine(text: string, cols: nat, rows: nat, k: nat, attrs: Attributes, r: nat)
    requires r < rows
    ensures |GridFor(text, cols, rows, k, attrs)| == rows
    ensures RowText(GridFor(text, cols, rows, k, attrs)[r]) == TrimEnd(Line(text, cols, r + k))
  {
    var line, chars := Line(text, cols, r + k), Chars(GridFor(text, cols, rows, k, attrs)[r]);
    assert (r + k) * cols + cols == (r + k + 1) * cols;
    assert |line| <= cols;
    var padded := line + seq(cols - |line|, _ => ' ');
    forall x | 0 <= x < cols ensures chars[x] == padded[x] {
      GridForCell(text, cols, rows, k, attrs, r, x);
    }
    assert chars == padded;
    TrimEndIgnoresSpaces(line, cols - |line|);
  }

  /** Without blank lines and within the limit, the scrollback is every line, trimmed. */
  lemma {:induction false} ScrolledIsLines(text: string, cols: nat, k: nat)
    requires k <= MAX_SCROLLBACK && forall j :: 0 <= j < k ==> !IsBlank(Line(text, cols, j))
    ensures Scrolled(text, cols, k) == seq(k, j requires 0 <= j => TrimEnd(Line(text, cols, j)))
  {
    hide Line, TrimEnd, IsBlank;
    if k > 0 {
      ScrolledIsLines(text, cols, k - 1);
      TrimEndTwice(Line(text, cols, k - 1));
    }
  }

  /** Reading the scrollback and then the visible rows gives back the text cut into lines of `cols`
      characters, provided no blank line scrolled off and the scrollback limit was not reached. */
  lemma TextReadsBack(cols: nat, rows: nat, attrs: Attributes, text: string)
    requires 1 <= cols <= U16_MAX && 1 <= rows <= U16_MAX
    requires var q := LastLine(|text|, cols);
             var k := if q >= rows then q - (rows - 1) else 0;
             k <= MAX_SCROLLBACK && forall j :: 0 <= j < k ==> !IsBlank(Line(text, cols, j))
    ensures CanvasOk(Start(cols, rows, attrs))
    ensures var c := PutAll(Start(cols, rows, attrs), text);
            var q := LastLine(|text|, cols);
            var k := if q >= rows then q - (rows - 1) else 0;
            && |c.main| == rows
            && c.scrollback + seq(rows, r requires 0 <= r < rows => RowText(c.main[r]))
                 == seq(k + rows, j requires 0 <= j => TrimEnd(Line(text, cols, j)))
  {
    hide GridFor, Scrolled, PutAll, LastLine, LastColumn, CanvasOk, RowText, Line, TrimEnd, IsBlank;
    TextLayout(cols, rows, attrs, text);
    var q := LastLine(|text|, cols);
    var k := if q >= rows then q - (rows - 1) else 0;
    ScrolledIsLines(text, cols, k);
    GridShape(text, cols, rows, k, attrs);
    forall r | 0 <= r < rows
      ensures RowText(GridFor(text, cols, rows, k, attrs)[r]) == TrimEnd(Line(text, cols, r + k))
    {
      RowIsLine(text, cols, rows, k, attrs, r);
    }
  }

  // ---- scrolling by a count -------------------------------------------------------------------------------

  lemma ScrollOneMore(g: Grid, cols: nat, k: nat)
    requires k < |g|
    ensures ScrolledUp(g[k..] + BlankRows(k, cols), cols) == g[k + 1..] + BlankRows(k + 1, cols)
    ensures ScrolledDown(BlankRows(k, cols) + g[..|g| - k], cols) == BlankRows(k + 1, cols) + g[..|g| - k - 1]
  {
  }

  lemma ScrollBlank(n: nat, cols: nat)
    requires n > 0
    ensures ScrolledUp(BlankRows(n, cols), cols) == BlankRows(n, cols)
    ensures ScrolledDown(BlankRows(n, cols), cols) == BlankRows(n, cols)
  {
  }

  lemma ScrollSteps(c: Canvas)
    requires CanvasOk(c)
    ensures Active(c) != [] && |Active(c)| == c.rows
    ensures ScrollUp(c) == WithActive(c.(scrollback := ScrollUp(c).scrollback), ScrolledUp(Active(c), c.cols))
    ensures ScrollDown(c) == WithActive(c, ScrolledDown(Active(c), c.cols))
  {
    hide RowText, PushLine;
  }

  /** The grid with `n` rows, or all, scrolled off the top, and off the bottom. */
  function ShiftedUp(g: Grid, cols: nat, n: nat): Grid {
    var k := Min(n, |g|);
    g[k..] + BlankRows(k, cols)
  }

  function ShiftedDown(g: Grid, cols: nat, n: nat): Grid {
    var k := Min(n, |g|);
    BlankRows(k, cols) + g[..|g| - k]
  }

  lemma ShiftNone(g: Grid, cols: nat)
    ensures ShiftedUp(g, cols, 0) == g && ShiftedDown(g, cols, 0) == g
  {
  }

  lemma ShiftMore(g: Grid, cols: nat, n: nat)
    requires g != []
    ensures ScrolledUp(ShiftedUp(g, cols, n), cols) == ShiftedUp(g, cols, n + 1)
    ensures ScrolledDown(ShiftedDown(g, cols, n), cols) == ShiftedDown(g, cols, n + 1)
  {
    hide ScrolledUp, ScrolledDown, BlankRows;
    if n < |g| {
      ScrollOneMore(g, cols, n);
    } else {
      AllRows(g, cols);
      ScrollBlank(|g|, cols);
    }
  }

  lemma AllRows(g: Grid, cols: nat)
    ensures g[|g|..] + BlankRows(|g|, cols) == BlankRows(|g|, cols) && BlankRows(|g|, cols) + g[..0] == BlankRows(|g|, cols)
  {
  }

  /** Scrolling up `n` times drops the top `n` rows and blanks as many at the bottom; scrolling down is
      its mirror image. */
  lemma {:induction false} ScrollByIsSlice(c: Canvas, n: nat)
    requires CanvasOk(c)
    ensures |Active(c)| == c.rows
    ensures ScrollUpBy(c, n) == WithActive(c.(scrollback := ScrollUpBy(c, n).scrollback), ShiftedUp(Active(c), c.cols, n))
    ensures ScrollDownBy(c, n) == WithActive(c, ShiftedDown(Active(c), c.cols, n))
  {
    hide CanvasOk, ScrollUp, ScrollDown, ScrolledUp, ScrolledDown, ShiftedUp, ShiftedDown;
    ScrollSteps(c);
    if n == 0 {
      ShiftNone(Active(c), c.cols);
    } else {
      ScrollByIsSlice(c, n - 1);
      ScrollSteps(ScrollUpBy(c, n - 1));
      ScrollSteps(ScrollDownBy(c, n - 1));
      ShiftMore(Active(c), c.cols, n - 1);
    }
  }
}
