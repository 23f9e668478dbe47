/** The byte-driven decoder in front of the canvas. */
module Screens {
  import opened Types
  import opened Canvases

  type Byte = b: int | 0 <= b < 256

  const MAX_OSC: nat := 8192
  const REPLACEMENT: char := '\U{FFFD}'

  datatype ParserState = Ground | Escape | Csi | Osc

  datatype Decoder = Decoder(
    parser: ParserState,
    params: seq<nat>, param: Option<nat>, isPrivate: bool, hasIntermediate: bool,
    utf8: seq<Byte>, needed: nat,
    osc: seq<Byte>)

  datatype Screen = Screen(canvas: Canvas, decoder: Decoder)

  const IDLE: Decoder := Decoder(Ground, [], None, false, false, [], 0, [])

  function NewScreen(cols: nat, rows: nat): Screen {
    Screen(NewCanvas(cols, rows), IDLE)
  }

  // ---- well-formedness --------------------------------------------------------------------------

  predicate IsContinuation(b: Byte) {
    0x80 <= b < 0xC0
  }

  /** The length of the sequence a byte starts, or zero. */
  function SequenceLength(b: Byte): nat {
    if 0xC2 <= b <= 0xDF then 2
    else if 0xE0 <= b <= 0xEF then 3
    else if 0xF0 <= b <= 0xF4 then 4
    else 0
  }

  /** A partial sequence: its first byte and some, but not all, of its continuation bytes. */
  predicate PartialOk(utf8: seq<Byte>, needed: nat) {
    if needed == 0 then utf8 == []
    else
      && 1 <= |utf8| < needed && SequenceLength(utf8[0]) == needed
      && forall i :: 1 <= i < |utf8| ==> IsContinuation(utf8[i])
  }

  predicate DecoderOk(d: Decoder) {
    && |d.osc| <= MAX_OSC
    && PartialOk(d.utf8, d.needed) && (d.needed > 0 ==> d.parser == Ground)
    && (forall p :: p in d.params ==> p <= U16_MAX) && (d.param.Some? ==> d.param.value <= U16_MAX)
  }

  /** Both grids keep their shape, the cursor stays inside, a partial character exists only between
      sequences and is shorter than it needs to be, and the buffers stay within their limits. */
  predicate WellFormed(s: Screen) {
    CanvasOk(s.canvas) && DecoderOk(s.decoder)
  }

  // ---- decoding ---------------------------------------------------------------------------------------

  function Low(b: Byte): nat {
    if b >= 0x80 then b - 0x80 else 0
  }

  /** The scalar that a complete sequence encodes, unless it is overlong, a surrogate or too large. */
  function DecodeScalar(bytes: seq<Byte>): Option<char> {
    if |bytes| == 2 && bytes[0] >= 0xC2 then
      var v := (bytes[0] - 0xC0) * 0x40 + Low(bytes[1]);
      if 0x80 <= v < 0x800 then Some(v as char) else None
    else if |bytes| == 3 && bytes[0] >= 0xE0 then
      var v := (bytes[0] - 0xE0) * 0x1000 + Low(bytes[1]) * 0x40 + Low(bytes[2]);
      if 0x800 <= v < 0xD800 || 0xE000 <= v < 0x10000 then Some(v as char) else None
    else if |bytes| == 4 && bytes[0] >= 0xF0 then
      var v := (bytes[0] - 0xF0) * 0x40000 + Low(bytes[1]) * 0x1000 + Low(bytes[2]) * 0x40 + Low(bytes[3]);
      if 0x10000 <= v < 0x110000 then Some(v as char) else None
    else None
  }

  function Decoded(bytes: seq<Byte>): char {
    match DecodeScalar(bytes)
    case Some(ch) => ch
    case None => REPLACEMENT
  }

  // ---- one byte -----------------------------------------------------------------------------------------

  function WithCanvas(s: Screen, c: Canvas): Screen {
    s.(canvas := c)
  }

  function WithParser(s: Screen, p: ParserState): Screen {
    s.(decoder := s.decoder.(parser := p))
  }

  function GroundByte(s: Screen, b: Byte): (t: Screen)
    requires WellFormed(s) && s.decoder.needed == 0 && s.decoder.parser == Ground
    ensures WellFormed(t)
  {
    hide GridOk;
    var c := s.canvas;
    if b == 0x1b then WithParser(s, Escape)
    else if SequenceLength(b) > 0 then s.(decoder := s.decoder.(utf8 := [b], needed := SequenceLength(b)))
    else if b >= 0x80 then WithCanvas(s, PutChar(c, REPLACEMENT))
    else if b == 0x0d then WithCanvas(s, c.(pendingWrap := false, col := 0))
    else if b == 0x0a then WithCanvas(s, LineFeed(c.(pendingWrap := false)))
    else if b == 0x08 then WithCanvas(s, Backspace(c))
    else if b == 0x09 then WithCanvas(s, c.(col := Min((c.col / 8 + 1) * 8, c.cols - 1)))
    else if b <= 0x1f then s
    else WithCanvas(s, PutChar(c, b as char))
  }

  function ExecuteOsc(st: Styling, s: Screen): (t: Screen)
    requires WellFormed(s)
    ensures WellFormed(t)
  {
    hide GridOk;
    if s.decoder.osc == [] then s
    else Screen(s.canvas.(attrs := st.osc(s.canvas.attrs, s.decoder.osc)), s.decoder.(osc := []))
  }

  function EscapeByte(st: Styling, s: Screen, b: Byte): (t: Screen)
    requires WellFormed(s) && s.decoder.needed == 0
    ensures WellFormed(t)
  {
    hide GridOk;
    var c := s.canvas;
    if b == '[' as int then
      s.(decoder := s.decoder.(parser := Csi, params := [], param := None, isPrivate := false, hasIntermediate := false))
    else if b == ']' as int then s.(decoder := s.decoder.(parser := Osc, osc := []))
    else if b == '7' as int then WithParser(WithCanvas(s, c.(savedRow := c.row, savedCol := c.col)), Ground)
    else if b == '8' as int then WithParser(WithCanvas(s, RestoreCursor(c.(pendingWrap := false))), Ground)
    else if b == '\\' as int then WithParser(ExecuteOsc(st, s), Ground)
    else if b == 'M' as int then WithParser(WithCanvas(s, ReverseIndex(c)), Ground)
    else WithParser(s, Ground)
  }

  /** Multiplies by ten and adds a digit, saturating at each step. */
  function AddDigit(value: nat, digit: nat): (v: nat)
    ensures v <= U16_MAX
  {
    Min(Min(value * 10, U16_MAX) + digit, U16_MAX)
  }

  function OrZero(param: Option<nat>): nat {
    if param.Some? then param.value else 0
  }

  /** The parameters of a sequence when its final byte arrives. */
  function AllParams(d: Decoder): seq<nat> {
    if d.param.Some? then d.params + [d.param.value] else d.params
  }

  function CsiByte(st: Styling, s: Screen, b: Byte): (t: Screen)
    requires WellFormed(s) && s.decoder.needed == 0
    ensures WellFormed(t)
  {
    hide GridOk, ExecuteCsi, GroundByte;
    var d := s.decoder;
    if 0x30 <= b <= 0x39 then s.(decoder := d.(param := Some(AddDigit(OrZero(d.param), b - 0x30))))
    else if b == ';' as int || b == ':' as int then
      s.(decoder := d.(params := d.params + [OrZero(d.param)], param := None))
    else if 0x3c <= b <= 0x3f then s.(decoder := d.(isPrivate := true))
    else if 0x20 <= b <= 0x2f then s.(decoder := d.(hasIntermediate := true))
    else if 0x40 <= b <= 0x7e then
      var params := AllParams(d);
      Screen(if d.hasIntermediate then s.canvas else ExecuteCsi(st, s.canvas, params, d.isPrivate, b as char),
             d.(params := params, parser := Ground))
    else if b < 0x20 then GroundByte(WithParser(s, Ground), b)
    else WithParser(s, Ground)
  }

  function OscByte(st: Styling, s: Screen, b: Byte): (t: Screen)
    requires WellFormed(s) && s.decoder.needed == 0
    ensures WellFormed(t)
  {
    hide GridOk;
    if b == 0x07 then WithParser(ExecuteOsc(st, s), Ground)
    else if b == 0x1b then WithParser(s, Escape)
    else if |s.decoder.osc| < MAX_OSC then s.(decoder := s.decoder.(osc := s.decoder.osc + [b]))
    else s
  }

  /** A byte outside any partial sequence. */
  function PlainByte(st: Styling, s: Screen, b: Byte): (t: Screen)
    requires WellFormed(s) && s.decoder.needed == 0
    ensures WellFormed(t)
  {
    hide GridOk, CanvasOk, GroundByte, EscapeByte, CsiByte, OscByte;
    match s.decoder.parser
    case Ground => GroundByte(s, b)
    case Escape => EscapeByte(st, s, b)
    case Csi => CsiByte(st, s, b)
    case Osc => OscByte(st, s, b)
  }

  function DropPartial(s: Screen): Screen {
    s.(decoder := s.decoder.(utf8 := [], needed := 0))
  }

  function Put(s: Screen, ch: char): (t: Screen)
    requires WellFormed(s)
    ensures WellFormed(t)
  {
    hide CanvasOk, PutChar;
    WithCanvas(s, PutChar(s.canvas, ch))
  }

  /** Whatever byte arrives, the screen stays well-formed. */
  function ProcessByte(st: Styling, s: Screen, b: Byte): (t: Screen)
    requires WellFormed(s)
    ensures WellFormed(t)
  {
    hide CanvasOk, PutChar, PlainByte;
    if s.decoder.needed > 0 then
      if IsContinuation(b) then
        var bytes := s.decoder.utf8 + [b];
        if |bytes| == s.decoder.needed then Put(DropPartial(s), Decoded(bytes))
        else s.(decoder := s.decoder.(utf8 := bytes))
      else PlainByte(st, Put(DropPartial(s), REPLACEMENT), b)
    else PlainByte(st, s, b)
  }

  /** All bytes of a stream. */
  function ProcessBytes(st: Styling, s: Screen, bytes: seq<Byte>): (t: Screen)
    requires WellFormed(s)
    ensures WellFormed(t)
  {
    hide WellFormed, ProcessByte;
    if bytes == [] then s
    else ProcessByte(st, ProcessBytes(st, s, bytes[..|bytes| - 1]), bytes[|bytes| - 1])
  }

  /** How a stream is cut into chunks does not matter. */
  lemma {:induction false} ChunksIrrelevant(st: Styling, s: Screen, first: seq<Byte>, second: seq<Byte>)
    requires WellFormed(s)
    ensures ProcessBytes(st, s, first + second) == ProcessBytes(st, ProcessBytes(st, s, first), second)
  {
    hide ProcessByte, WellFormed;
    if second == [] {
      assert first + second == first;
    } else {
      var last := |second| - 1;
      assert (first + second)[..|first + second| - 1] == first + second[..last];
      ChunksIrrelevant(st, s, first, second[..last]);
    }
  }

  // ---- whole sessions ---------------------------------------------------------------------------------------

  datatype Input = Bytes(bytes: seq<Byte>) | ResizeTo(cols: nat, rows: nat)

  predicate InputOk(x: Input) {
    x.ResizeTo? ==> 1 <= x.cols <= U16_MAX && 1 <= x.rows <= U16_MAX
  }

  function ResizeScreen(s: Screen, cols: nat, rows: nat): (t: Screen)
    requires WellFormed(s) && 1 <= cols <= U16_MAX && 1 <= rows <= U16_MAX
    ensures WellFormed(t)
  {
    ResizeKeeps(s.canvas, cols, rows);
    s.(canvas := Resize(s.canvas, cols, rows))
  }

  /** Any byte stream interleaved with any resizes, from a new screen, leaves a well-formed screen. */
  function Played(st: Styling, cols: nat, rows: nat, inputs: seq<Input>): (s: Screen)
    requires 1 <= cols <= U16_MAX && 1 <= rows <= U16_MAX && forall x :: x in inputs ==> InputOk(x)
    ensures WellFormed(s)
  {
    hide ProcessBytes, ResizeScreen;
    if inputs == [] then NewScreen(cols, rows)
    else
      var before := Played(st, cols, rows, inputs[..|inputs| - 1]);
      var x := inputs[|inputs| - 1];
      assert InputOk(x);
      match x
      case Bytes(bytes) => ProcessBytes(st, before, bytes)
      case ResizeTo(c, r) => ResizeScreen(before, c, r)
  }
}
