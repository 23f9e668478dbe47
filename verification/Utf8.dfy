/** UTF-8 (section 3 of RFC 3629): the decoder inverts the encoding, however the bytes arrive. */
module Utf8 {
  import opened Types
  import opened Canvases
  import opened Layout
  import opened Screens

  /** The shortest byte sequence for a scalar value. */
  function Encode(ch: char): seq<Byte> {
    var v := ch as int;
    if v < 0x80 then [v]
    else if v < 0x800 then [0xC0 + v / 0x40, 0x80 + v % 0x40]
    else if v < 0x10000 then [0xE0 + v / 0x1000, 0x80 + v / 0x40 % 0x40, 0x80 + v % 0x40]
    else [0xF0 + v / 0x40000, 0x80 + v / 0x1000 % 0x40, 0x80 + v / 0x40 % 0x40, 0x80 + v % 0x40]
  }

  function EncodeAll(text: string): seq<Byte> {
    if text == "" then [] else EncodeAll(text[..|text| - 1]) + Encode(text[|text| - 1])
  }

  /** A first byte with as many continuation bytes as it calls for. */
  predicate Shaped(bytes: seq<Byte>) {
    && |bytes| >= 2 && SequenceLength(bytes[0]) == |bytes|
    && forall i :: 1 <= i < |bytes| ==> IsContinuation(bytes[i])
  }

  // Digits in base 0x40, one length at a time.

  lemma TwoDigits(a: nat, b: nat)
    requires b < 0x40
    ensures (a * 0x40 + b) / 0x40 == a && (a * 0x40 + b) % 0x40 == b
  {
  }

  lemma ThreeDigits(a: nat, b: nat, c: nat)
    requires b < 0x40 && c < 0x40
    ensures var v := a * 0x1000 + b * 0x40 + c; v / 0x1000 == a && v / 0x40 % 0x40 == b && v % 0x40 == c
  {
    var v := a * 0x1000 + b * 0x40 + c;
    TwoDigits(a * 0x40 + b, c);
    TwoDigits(a, b);
    assert v / 0x1000 == v / 0x40 / 0x40;
  }

  lemma FourDigits(a: nat, b: nat, c: nat, d: nat)
    requires b < 0x40 && c < 0x40 && d < 0x40
    ensures var v := a * 0x40000 + b * 0x1000 + c * 0x40 + d;
            v / 0x40000 == a && v / 0x1000 % 0x40 == b && v / 0x40 % 0x40 == c && v % 0x40 == d
  {
    var v := a * 0x40000 + b * 0x1000 + c * 0x40 + d;
    TwoDigits(a * 0x1000 + b * 0x40 + c, d);
    ThreeDigits(a, b, c);
    assert v / 0x1000 == v / 0x40 / 0x40 && v / 0x40000 == v / 0x40 / 0x1000;
  }

  /** The encoding of a scalar from U+0080 up has the right shape and decodes to it. */
  lemma EncodeShaped(ch: char)
    requires ch as int >= 0x80
    ensures Shaped(Encode(ch)) && DecodeScalar(Encode(ch)) == Some(ch)
  {
    var v := ch as int;
    if v < 0x800 {
      TwoDigits(v / 0x40, v % 0x40);
    } else if v < 0x10000 {
      assert v == v / 0x1000 * 0x1000 + v / 0x40 % 0x40 * 0x40 + v % 0x40 by {
        assert v / 0x40 / 0x40 == v / 0x1000;
      }
    } else {
      assert v == v / 0x40000 * 0x40000 + v / 0x1000 % 0x40 * 0x1000 + v / 0x40 % 0x40 * 0x40 + v % 0x40 by {
        assert v / 0x40 / 0x40 == v / 0x1000 && v / 0x1000 / 0x40 == v / 0x40000;
      }
    }
  }

  /** A complete sequence that decodes is the encoding of what it decodes to. */
  lemma DecodedIsEncoding(bytes: seq<Byte>)
    requires Shaped(bytes) && DecodeScalar(bytes).Some?
    ensures bytes == Encode(DecodeScalar(bytes).value)
  {
    hide DecodeScalar, Encode;
    if |bytes| == 2 {
      TwoIsEncoding(bytes);
    } else if |bytes| == 3 {
      ThreeIsEncoding(bytes);
    } else {
      FourIsEncoding(bytes);
    }
  }

  lemma TwoIsEncoding(bytes: seq<Byte>)
    requires Shaped(bytes) && |bytes| == 2 && DecodeScalar(bytes).Some?
    ensures bytes == Encode(DecodeScalar(bytes).value)
  {
    TwoDigits(bytes[0] - 0xC0, Low(bytes[1]));
  }

  lemma ThreeIsEncoding(bytes: seq<Byte>)
    requires Shaped(bytes) && |bytes| == 3 && DecodeScalar(bytes).Some?
    ensures bytes == Encode(DecodeScalar(bytes).value)
  {
    ThreeDigits(bytes[0] - 0xE0, Low(bytes[1]), Low(bytes[2]));
  }

  lemma FourIsEncoding(bytes: seq<Byte>)
    requires Shaped(bytes) && |bytes| == 4 && DecodeScalar(bytes).Some?
    ensures bytes == Encode(DecodeScalar(bytes).value)
  {
    FourDigits(bytes[0] - 0xF0, Low(bytes[1]), Low(bytes[2]), Low(bytes[3]));
  }

  /** Of the complete sequences, exactly the encodings decode, each to its scalar: overlong forms,
      surrogates and values past the last scalar do not. */
  lemma DecodesExactlyEncodings(bytes: seq<Byte>, ch: char)
    requires Shaped(bytes)
    ensures DecodeScalar(bytes) == Some(ch) <==> bytes == Encode(ch)
  {
    if DecodeScalar(bytes) == Some(ch) {
      DecodedIsEncoding(bytes);
    } else if bytes == Encode(ch) {
      assert ch as int >= 0x80;
      EncodeShaped(ch);
    }
  }

  predicate Printable(ch: char) {
    ch as int >= 0x20
  }

  predicate AtRest(s: Screen) {
    WellFormed(s) && s.decoder.parser == Ground && s.decoder.needed == 0
  }

  lemma FirstByte(st: Styling, s: Screen, b: Byte)
    requires AtRest(s) && SequenceLength(b) > 0
    ensures ProcessByte(st, s, b) == s.(decoder := s.decoder.(utf8 := [b], needed := SequenceLength(b)))
  {
    hide GridOk, CanvasOk, PutChar;
  }

  lemma NextByte(st: Styling, s: Screen, b: Byte)
    requires WellFormed(s) && s.decoder.needed > |s.decoder.utf8| + 1 && IsContinuation(b)
    ensures ProcessByte(st, s, b) == s.(decoder := s.decoder.(utf8 := s.decoder.utf8 + [b]))
  {
    hide GridOk, CanvasOk, PutChar;
  }

  lemma LastByte(st: Styling, s: Screen, b: Byte)
    requires WellFormed(s) && s.decoder.needed == |s.decoder.utf8| + 1 && IsContinuation(b)
    ensures ProcessByte(st, s, b) == Put(DropPartial(s), Decoded(s.decoder.utf8 + [b]))
  {
    hide GridOk, CanvasOk, PutChar;
  }

  /** Feeding the first `n` bytes of a sequence collects them. */
  lemma {:induction false} BytesCollect(st: Styling, s: Screen, bytes: seq<Byte>, n: nat)
    requires AtRest(s) && Shaped(bytes) && 1 <= n < |bytes|
    ensures ProcessBytes(st, s, bytes[..n]) == s.(decoder := s.decoder.(utf8 := bytes[..n], needed := |bytes|))
  {
    hide GridOk, CanvasOk, PutChar, ProcessByte;
    assert bytes[..n][..n - 1] == bytes[..n - 1];
    if n == 1 {
      assert ProcessBytes(st, s, bytes[..1][..0]) == s;
      FirstByte(st, s, bytes[0]);
      assert bytes[..1] == [bytes[0]];
    } else {
      BytesCollect(st, s, bytes, n - 1);
      NextByte(st, ProcessBytes(st, s, bytes[..n - 1]), bytes[n - 1]);
      assert bytes[..n - 1] + [bytes[n - 1]] == bytes[..n];
    }
  }

  /** A complete sequence writes its scalar, or the replacement character, and leaves no trace. */
  lemma SequenceWritesOne(st: Styling, s: Screen, bytes: seq<Byte>)
    requires AtRest(s) && Shaped(bytes)
    ensures ProcessBytes(st, s, bytes) == Put(s, Decoded(bytes))
  {
    hide GridOk, CanvasOk, PutChar, ProcessByte, Decoded;
    var n := |bytes| - 1;
    BytesCollect(st, s, bytes, n);
    LastByte(st, ProcessBytes(st, s, bytes[..n]), bytes[n]);
    assert bytes[..n] + [bytes[n]] == bytes;
  }

  /** The bytes of a printable character write that character. */
  lemma EncodedPuts(st: Styling, s: Screen, ch: char)
    requires AtRest(s) && Printable(ch)
    ensures ProcessBytes(st, s, Encode(ch)) == Put(s, ch)
  {
    hide GridOk, CanvasOk, PutChar;
    if ch as int < 0x80 {
      assert Encode(ch)[..0] == [];
      assert ProcessBytes(st, s, Encode(ch)[..0]) == s;
      SingleByte(st, s, ch);
    } else {
      EncodeShaped(ch);
      SequenceWritesOne(st, s, Encode(ch));
    }
  }

  lemma SingleByte(st: Styling, s: Screen, ch: char)
    requires AtRest(s) && 0x20 <= ch as int < 0x80
    ensures ProcessByte(st, s, ch as int) == Put(s, ch)
  {
    hide GridOk, CanvasOk, PutChar;
  }

  /** Decoding inverts encoding: the bytes of any printable text write exactly that text. Together with
      the irrelevance of chunks, it does not matter where the bytes are split. */
  lemma {:induction false} TextRoundTrip(st: Styling, s: Screen, text: string)
    requires AtRest(s) && forall ch :: ch in text ==> Printable(ch)
    ensures ProcessBytes(st, s, EncodeAll(text)) == WithCanvas(s, PutAll(s.canvas, text))
  {
    hide GridOk, CanvasOk, PutChar, ProcessByte, Encode;
    if text != "" {
      var init, ch := text[..|text| - 1], text[|text| - 1];
      TextRoundTrip(st, s, init);
      ChunksIrrelevant(st, s, EncodeAll(init), Encode(ch));
      EncodedPuts(st, ProcessBytes(st, s, EncodeAll(init)), ch);
    }
  }

  function Flatten(chunks: seq<seq<Byte>>): seq<Byte> {
    if chunks == [] then [] else Flatten(chunks[..|chunks| - 1]) + chunks[|chunks| - 1]
  }

  /** Chunks processed one after the other, as they arrive. */
  function ProcessChunks(st: Styling, s: Screen, chunks: seq<seq<Byte>>): (t: Screen)
    requires WellFormed(s)
    ensures WellFormed(t)
  {
    hide WellFormed, ProcessBytes;
    if chunks == [] then s
    else ProcessBytes(st, ProcessChunks(st, s, chunks[..|chunks| - 1]), chunks[|chunks| - 1])
  }

  /** However a stream is cut, it does what it does in one piece. */
  lemma {:induction false} ChunkedIsWhole(st: Styling, s: Screen, chunks: seq<seq<Byte>>)
    requires WellFormed(s)
    ensures ProcessChunks(st, s, chunks) == ProcessBytes(st, s, Flatten(chunks))
  {
    hide WellFormed, ProcessBytes;
    if chunks == [] {
      NoBytes(st, s);
    } else {
      var init, last := chunks[..|chunks| - 1], chunks[|chunks| - 1];
      ChunkedIsWhole(st, s, init);
      ChunksIrrelevant(st, s, Flatten(init), last);
    }
  }

  lemma NoBytes(st: Styling, s: Screen)
    requires WellFormed(s)
    ensures ProcessBytes(st, s, []) == s
  {
  }

  /** The bytes of a printable text write that text in whatever chunks they arrive. */
  lemma TextRoundTripChunked(st: Styling, s: Screen, text: string, chunks: seq<seq<Byte>>)
    requires AtRest(s) && (forall ch :: ch in text ==> Printable(ch)) && Flatten(chunks) == EncodeAll(text)
    ensures ProcessChunks(st, s, chunks) == WithCanvas(s, PutAll(s.canvas, text))
  {
    hide WellFormed, ProcessBytes, PutAll;
    TextRoundTrip(st, s, text);
    ChunkedIsWhole(st, s, chunks);
  }
}
