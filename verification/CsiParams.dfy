/** Control sequences (section 5.4 of ECMA-48): parsing the parameters inverts printing them, and a
    cursor position report (section 8.3.14) sent back as a cursor position (section 8.3.21) restores
    the cursor. */
module CsiParams {
  import opened Types
  import opened Canvases
  import opened Screens
  import opened Utf8

  const ESC: Byte := 0x1b

  /** Decimal digits, without leading zeros. */
  function Digits(n: nat): (d: seq<Byte>)
    ensures d != []
  {
    if n < 10 then [0x30 + n] else Digits(n / 10) + [0x30 + n % 10]
  }

  /** Parameters in decimal, separated by semicolons. */
  function Printed(params: seq<nat>): seq<Byte>
    requires params != []
  {
    var last := |params| - 1;
    if last == 0 then Digits(params[0]) else Printed(params[..last]) + [0x3b] + Digits(params[last])
  }

  function Saturated(params: seq<nat>): seq<nat> {
    seq(|params|, i requires 0 <= i < |params| => Min(params[i], U16_MAX))
  }

  /** A whole control sequence without private markers or intermediate bytes. */
  function Sequence(params: seq<nat>, final: Byte): seq<Byte> {
    [ESC, 0x5b] + (if params == [] then [] else Printed(params)) + [final]
  }

  predicate InSequence(s: Screen) {
    WellFormed(s) && s.decoder.parser == Csi && s.decoder.needed == 0
  }

  function WithParam(s: Screen, params: seq<nat>, param: Option<nat>): Screen {
    s.(decoder := s.decoder.(params := params, param := param))
  }

  lemma DigitByte(st: Styling, s: Screen, d: nat)
    requires InSequence(s) && d < 10
    ensures ProcessByte(st, s, 0x30 + d) == WithParam(s, s.decoder.params, Some(AddDigit(OrZero(s.decoder.param), d)))
  {
    hide GridOk, CanvasOk, PutChar, ExecuteCsi, GroundByte, AddDigit;
  }

  lemma SeparatorByte(st: Styling, s: Screen)
    requires InSequence(s)
    ensures ProcessByte(st, s, 0x3b) == WithParam(s, s.decoder.params + [OrZero(s.decoder.param)], None)
  {
    hide GridOk, CanvasOk, PutChar, ExecuteCsi, GroundByte, AddDigit;
  }

  lemma FinalByte(st: Styling, s: Screen, final: Byte)
    requires InSequence(s) && 0x40 <= final <= 0x7e && !s.decoder.hasIntermediate
    ensures ProcessByte(st, s, final)
         == Screen(ExecuteCsi(st, s.canvas, AllParams(s.decoder), s.decoder.isPrivate, final as char),
                   s.decoder.(params := AllParams(s.decoder), parser := Ground))
  {
    hide GridOk, CanvasOk, PutChar, ExecuteCsi, GroundByte;
  }

  /** The saturating fold over the digits of a number is the number, cut at the maximum. */
  lemma AddDigitSaturates(n: nat)
    ensures AddDigit(Min(n / 10, U16_MAX), n % 10) == Min(n, U16_MAX)
  {
    assert n == n / 10 * 10 + n % 10;
  }

  lemma {:induction false} DigitsParse(st: Styling, s: Screen, n: nat)
    requires InSequence(s) && s.decoder.param == None
    ensures ProcessBytes(st, s, Digits(n)) == WithParam(s, s.decoder.params, Some(Min(n, U16_MAX)))
  {
    hide GridOk, CanvasOk, PutChar, ProcessByte, AddDigit;
    var d := Digits(n);
    if n < 10 {
      assert d[..0] == [] && ProcessBytes(st, s, d[..0]) == s;
      DigitByte(st, s, n);
      AddDigitSaturates(n);
    } else {
      assert d[..|d| - 1] == Digits(n / 10);
      DigitsParse(st, s, n / 10);
      DigitByte(st, ProcessBytes(st, s, Digits(n / 10)), n % 10);
      AddDigitSaturates(n);
    }
  }

  /** Whatever list of naturals was printed, the parser holds it again, each number cut at 65535. */
  lemma {:induction false} PrintedParses(st: Styling, s: Screen, params: seq<nat>)
    requires InSequence(s) && s.decoder.param == None && params != []
    ensures var last := |params| - 1;
            ProcessBytes(st, s, Printed(params))
              == WithParam(s, s.decoder.params + Saturated(params[..last]), Some(Min(params[last], U16_MAX)))
  {
    hide GridOk, CanvasOk, PutChar, ProcessByte, ProcessBytes, Digits;
    var last := |params| - 1;
    if last == 0 {
      DigitsParse(st, s, params[0]);
      assert s.decoder.params + Saturated(params[..0]) == s.decoder.params;
    } else {
      var init := params[..last];
      PrintedParses(st, s, init);
      var t := ProcessBytes(st, s, Printed(init));
      ChunksIrrelevant(st, s, Printed(init), [0x3b]);
      OneByte(st, t, 0x3b);
      SeparatorByte(st, t);
      var u := ProcessBytes(st, s, Printed(init) + [0x3b]);
      ChunksIrrelevant(st, s, Printed(init) + [0x3b], Digits(params[last]));
      DigitsParse(st, u, params[last]);
      assert (s.decoder.params + Saturated(init[..last - 1])) + [Min(init[last - 1], U16_MAX)]
          == s.decoder.params + Saturated(init);
    }
  }

  lemma OneByte(st: Styling, s: Screen, b: Byte)
    requires WellFormed(s)
    ensures ProcessBytes(st, s, [b]) == ProcessByte(st, s, b)
  {
    assert [b][..0] == [] && ProcessBytes(st, s, [b][..0]) == s;
  }

  lemma SequenceOpens(st: Styling, s: Screen)
    requires AtRest(s)
    ensures ProcessBytes(st, s, [ESC, 0x5b])
         == s.(decoder := s.decoder.(parser := Csi, params := [], param := None, isPrivate := false, hasIntermediate := false))
  {
    hide GridOk, CanvasOk, PutChar;
    assert [ESC, 0x5b][..1] == [ESC];
    OneByte(st, s, ESC);
  }

  /** The rest of a sequence: its parameters and its final byte. */
  function Rest(params: seq<nat>, final: Byte): seq<Byte> {
    (if params == [] then [] else Printed(params)) + [final]
  }

  lemma RestExecutes(st: Styling, s: Screen, params: seq<nat>, final: Byte)
    requires InSequence(s) && AllParams(s.decoder) == [] && !s.decoder.hasIntermediate && 0x40 <= final <= 0x7e
    ensures var t := ProcessBytes(st, s, Rest(params, final));
            t.canvas == ExecuteCsi(st, s.canvas, Saturated(params), s.decoder.isPrivate, final as char) && AtRest(t)
  {
    hide GridOk, CanvasOk, PutChar, ProcessByte, ProcessBytes, ExecuteCsi, Printed;
    if params == [] {
      assert Saturated(params) == [] && Rest(params, final) == [final];
      OneByte(st, s, final);
      FinalByte(st, s, final);
    } else {
      var parsed := ProcessBytes(st, s, Printed(params));
      PrintedParses(st, s, params);
      assert [] + Saturated(params[..|params| - 1]) + [Min(params[|params| - 1], U16_MAX)] == Saturated(params);
      ChunksIrrelevant(st, s, Printed(params), [final]);
      OneByte(st, parsed, final);
      FinalByte(st, parsed, final);
    }
  }

  /** A printed control sequence executes its command with exactly the printed parameters, each cut at
      65535, and leaves the decoder at rest. */
  lemma SequenceExecutes(st: Styling, s: Screen, params: seq<nat>, final: Byte)
    requires AtRest(s) && 0x40 <= final <= 0x7e
    ensures var t := ProcessBytes(st, s, Sequence(params, final));
            && t.canvas == ExecuteCsi(st, s.canvas, Saturated(params), false, final as char)
            && AtRest(t)
  {
    hide GridOk, CanvasOk, PutChar, ProcessByte, ProcessBytes, ExecuteCsi, Printed;
    SequenceOpens(st, s);
    assert Sequence(params, final) == [ESC, 0x5b] + Rest(params, final);
    ChunksIrrelevant(st, s, [ESC, 0x5b], Rest(params, final));
    RestExecutes(st, ProcessBytes(st, s, [ESC, 0x5b]), params, final);
  }

  /** The same sequence with a question mark in front executes as a private one. */
  lemma PrivateExecutes(st: Styling, s: Screen, params: seq<nat>, final: Byte)
    requires AtRest(s) && 0x40 <= final <= 0x7e
    ensures var t := ProcessBytes(st, s, [ESC, 0x5b, '?' as int] + Rest(params, final));
            && t.canvas == ExecuteCsi(st, s.canvas, Saturated(params), true, final as char)
            && AtRest(t)
  {
    hide GridOk, CanvasOk, PutChar, ProcessByte, ProcessBytes, ExecuteCsi, Printed, Rest;
    SequenceOpens(st, s);
    var opened_ := ProcessBytes(st, s, [ESC, 0x5b]);
    assert [ESC, 0x5b, '?' as int] == [ESC, 0x5b] + ['?' as int];
    ChunksIrrelevant(st, s, [ESC, 0x5b], ['?' as int]);
    OneByte(st, opened_, '?' as int);
    MarkerByte(st, opened_);
    ChunksIrrelevant(st, s, [ESC, 0x5b, '?' as int], Rest(params, final));
    RestExecutes(st, ProcessByte(st, opened_, '?' as int), params, final);
  }

  lemma MarkerByte(st: Styling, s: Screen)
    requires InSequence(s)
    ensures ProcessByte(st, s, '?' as int) == s.(decoder := s.decoder.(isPrivate := true))
  {
    hide GridOk, CanvasOk, PutChar, ExecuteCsi, GroundByte, AddDigit;
  }

  // ---- the cursor position report -------------------------------------------------------------------

  predicate MatchesAt(bytes: seq<Byte>, pattern: seq<Byte>, i: int) {
    0 <= i <= |bytes| - |pattern| && bytes[i..i + |pattern|] == pattern
  }

  predicate Contains(bytes: seq<Byte>, pattern: seq<Byte>) {
    exists i :: 0 <= i <= |bytes| && MatchesAt(bytes, pattern, i)
  }

  const POSITION_QUERY: seq<Byte> := [ESC, 0x5b, 0x36, 0x6e]

  /** The reply to a position query among the bytes that the child wrote. */
  function PositionReply(bytes: seq<Byte>, c: Canvas): seq<Byte> {
    if Contains(bytes, POSITION_QUERY) then Sequence([c.row + 1, c.col + 1], 'R' as int) else []
  }

  /** The same bytes as a cursor position command. */
  function AsPosition(reply: seq<Byte>): seq<Byte>
    requires reply != []
  {
    reply[..|reply| - 1] + ['H' as int]
  }

  /** Sending the reported position back as a cursor position puts the cursor of any screen of the same
      size where the report found it, and changes nothing else but a deferred wrap. */
  lemma ReportRestoresCursor(st: Styling, bytes: seq<Byte>, reported: Canvas, s: Screen)
    requires CanvasOk(reported) && AtRest(s) && Contains(bytes, POSITION_QUERY)
    requires reported.cols == s.canvas.cols && reported.rows == s.canvas.rows
    ensures var reply := PositionReply(bytes, reported);
            reply != [] && ProcessBytes(st, s, AsPosition(reply)).canvas
              == s.canvas.(row := reported.row, col := reported.col, pendingWrap := false)
  {
    hide GridOk, PutChar, ProcessByte, ProcessBytes, Printed;
    var params := [reported.row + 1, reported.col + 1];
    var reply := PositionReply(bytes, reported);
    assert reply == Sequence(params, 'R' as int);
    assert AsPosition(reply) == Sequence(params, 'H' as int);
    SequenceExecutes(st, s, params, 'H' as int);
    assert Saturated(params) == params;
  }
}
