/** Percent-encoding of texts, section 2.1 of RFC 3986. */
module Percent {
  import opened Types
  import opened Screens
  import opened Utf8

  // ---- UTF-8 texts -----------------------------------------------------------------------------------

  /** The text that the bytes encode, if they are UTF-8. */
  function FromBytes(bytes: seq<Byte>): Option<string>
    decreases |bytes|
  {
    if bytes == [] then Some("")
    else
      var n := if bytes[0] < 0x80 then 1 else SequenceLength(bytes[0]);
      if n == 0 || n > |bytes| then None
      else
        var ch := if n == 1 then Some(bytes[0] as char)
                  else if Shaped(bytes[..n]) then DecodeScalar(bytes[..n]) else None;
        var rest := FromBytes(bytes[n..]);
        if ch.None? || rest.None? then None else Some([ch.value] + rest.value)
  }

  lemma {:induction false} EncodeAllFront(text: string)
    requires text != ""
    ensures EncodeAll(text) == Encode(text[0]) + EncodeAll(text[1..])
  {
    hide Encode;
    if |text| == 1 {
      assert text[..0] == "" && text[1..] == "";
    } else {
      var init := text[..|text| - 1];
      EncodeAllFront(init);
      assert init[1..] == text[1..][..|text| - 2];
    }
  }

  lemma {:induction false} FromBytesInverts(text: string)
    ensures FromBytes(EncodeAll(text)) == Some(text)
    decreases |text|
  {
    hide Encode, Shaped, DecodeScalar;
    if text != "" {
      EncodeAllFront(text);
      FromBytesInverts(text[1..]);
      FirstScalar(text[0], EncodeAll(text[1..]));
      assert [text[0]] + text[1..] == text;
    }
  }

  lemma FirstScalar(ch: char, rest: seq<Byte>)
    ensures FromBytes(Encode(ch) + rest) ==
              if FromBytes(rest).None? then None else Some([ch] + FromBytes(rest).value)
  {
    var bytes, n := Encode(ch) + rest, |Encode(ch)|;
    assert bytes[..n] == Encode(ch) && bytes[n..] == rest;
    if ch as int >= 0x80 {
      hide DecodeScalar;
      EncodeShaped(ch);
    }
  }

  lemma {:induction false} EncodeAllAppend(a: string, b: string)
    ensures EncodeAll(a + b) == EncodeAll(a) + EncodeAll(b)
  {
    hide Encode;
    if b == "" {
      assert a + b == a;
    } else {
      assert (a + b)[..|a + b| - 1] == a + b[..|b| - 1];
      EncodeAllAppend(a, b[..|b| - 1]);
    }
  }

  lemma NothingEncoded()
    ensures EncodeAll("") == []
  {
  }

  lemma OneEncoded(ch: char)
    ensures EncodeAll([ch]) == Encode(ch)
  {
    assert [ch][..0] == "";
  }

  /** Bytes that are UTF-8 are the encoding of the text they stand for. */
  lemma {:induction false} BytesReadBack(bytes: seq<Byte>)
    requires FromBytes(bytes).Some?
    ensures EncodeAll(FromBytes(bytes).value) == bytes
    decreases |bytes|
  {
    hide Encode, DecodeScalar, Shaped, SequenceLength;
    if bytes != [] {
      var text := FromBytes(bytes).value;
      var n := FirstLength(bytes);
      BytesReadBack(bytes[n..]);
      EncodeAllFront(text);
      assert text[1..] == FromBytes(bytes[n..]).value;
      assert bytes[..n] + bytes[n..] == bytes;
    }
  }

  lemma FirstLength(bytes: seq<Byte>) returns (n: nat)
    requires bytes != [] && FromBytes(bytes).Some?
    ensures 1 <= n <= |bytes| && FromBytes(bytes[n..]).Some?
    ensures FromBytes(bytes).value != "" && FromBytes(bytes).value[1..] == FromBytes(bytes[n..]).value
    ensures Encode(FromBytes(bytes).value[0]) == bytes[..n]
  {
    hide DecodeScalar, Encode, SequenceLength, Shaped;
    if bytes[0] < 0x80 {
      n := 1;
      SmallEncodes(bytes[0]);
      assert bytes[..1] == [bytes[0]];
    } else {
      n := SequenceLength(bytes[0]);
      BigLength(bytes[0]);
      DecodedIsEncoding(bytes[..n]);
    }
  }

  lemma SmallEncodes(b: Byte)
    requires b < 0x80
    ensures Encode(b as char) == [b]
  {
  }

  lemma BigLength(b: Byte)
    requires b >= 0x80
    ensures SequenceLength(b) != 1
  {
  }

  // ---- percent-encoding ------------------------------------------------------------------------------

  predicate Unreserved(b: Byte) {
    0x41 <= b <= 0x5a || 0x61 <= b <= 0x7a || 0x30 <= b <= 0x39 || b in {0x2d, 0x2e, 0x5f, 0x7e}
  }

  function HexDigit(v: nat): (b: Byte)
    requires v < 16
  {
    if v < 10 then 0x30 + v else 0x41 + (v - 10)
  }

  function HexValue(b: Byte): (v: Option<nat>)
    ensures v.Some? ==> v.value < 16
  {
    if 0x30 <= b <= 0x39 then Some(b - 0x30)
    else if 0x41 <= b <= 0x46 then Some(b - 0x41 + 10)
    else if 0x61 <= b <= 0x66 then Some(b - 0x61 + 10)
    else None
  }

  function EscapeByte(b: Byte): (r: seq<Byte>)
    ensures r != []
    ensures forall c :: c in r ==> Unreserved(c) || c == 0x25
  {
    if Unreserved(b) then [b] else [0x25, HexDigit(b / 16), HexDigit(b % 16)]
  }

  function Escape(bytes: seq<Byte>): (r: seq<Byte>)
    ensures forall c :: c in r ==> Unreserved(c) || c == 0x25
  {
    if bytes == [] then [] else EscapeByte(bytes[0]) + Escape(bytes[1..])
  }

  /** A percent sign that no two hexadecimal digits follow stands for itself. */
  function Unescape(bytes: seq<Byte>): seq<Byte> {
    if bytes == [] then []
    else if bytes[0] == 0x25 && |bytes| >= 3 && HexValue(bytes[1]).Some? && HexValue(bytes[2]).Some? then
      [HexValue(bytes[1]).value * 16 + HexValue(bytes[2]).value] + Unescape(bytes[3..])
    else [bytes[0]] + Unescape(bytes[1..])
  }

  lemma EscapedByteReads(b: Byte, rest: seq<Byte>)
    ensures Unescape(EscapeByte(b) + rest) == [b] + Unescape(rest)
  {
    var bytes := EscapeByte(b) + rest;
    assert bytes[|EscapeByte(b)|..] == rest;
    assert HexValue(HexDigit(b / 16)) == Some(b / 16) && HexValue(HexDigit(b % 16)) == Some(b % 16);
  }

  lemma {:induction false} UnescapeInverts(bytes: seq<Byte>)
    ensures Unescape(Escape(bytes)) == bytes
  {
    hide EscapeByte, Unescape;
    if bytes == [] {
      UnescapeEmpty();
    } else {
      EscapedByteReads(bytes[0], Escape(bytes[1..]));
      UnescapeInverts(bytes[1..]);
      assert [bytes[0]] + bytes[1..] == bytes;
    }
  }

  lemma UnescapeEmpty()
    ensures Unescape([]) == []
  {
  }

  function Characters(bytes: seq<Byte>): (s: string)
    requires forall b :: b in bytes ==> b < 0x80
    ensures |s| == |bytes| && forall i :: 0 <= i < |s| ==> s[i] as int == bytes[i]
  {
    seq(|bytes|, i requires 0 <= i < |bytes| => assert bytes[i] in bytes; bytes[i] as char)
  }

  lemma {:induction false} AsciiBytes(s: string)
    requires forall ch :: ch in s ==> ch as int < 0x80
    ensures EncodeAll(s) == seq(|s|, i requires 0 <= i < |s| => s[i] as int)
  {
    if s != "" {
      var init, last := s[..|s| - 1], s[|s| - 1];
      forall ch | ch in init ensures ch as int < 0x80 { assert ch in s; }
      AsciiBytes(init);
      assert last in s && Encode(last) == [last as int];
    }
  }

  function PercentEncode(text: string): string {
    Characters(Escape(EncodeAll(text)))
  }

  /** Nothing if what the escapes stand for is not UTF-8. */
  function PercentDecode(s: string): Option<string> {
    FromBytes(Unescape(EncodeAll(s)))
  }

  /** Characters that an encoded text can contain. */
  predicate Safe(ch: char) {
    ch as int < 0x80 && (Unreserved(ch as int) || ch == '%')
  }

  lemma EncodedIsSafe(text: string)
    ensures forall ch :: ch in PercentEncode(text) ==> Safe(ch)
  {
    var bytes := Escape(EncodeAll(text));
    forall ch | ch in PercentEncode(text) ensures Safe(ch) {
      var i :| 0 <= i < |bytes| && PercentEncode(text)[i] == ch;
      assert bytes[i] in bytes;
    }
  }

  /** Decoding inverts encoding, for every text. */
  lemma PercentRoundTrip(text: string)
    ensures PercentDecode(PercentEncode(text)) == Some(text)
  {
    EncodedIsSafe(text);
    AsciiBytes(PercentEncode(text));
    assert EncodeAll(PercentEncode(text)) == Escape(EncodeAll(text));
    UnescapeInverts(EncodeAll(text));
    FromBytesInverts(text);
  }

  function EscapedChar(ch: char): string
    requires ch as int < 0x80
  {
    if 'a' <= ch <= 'z' || 'A' <= ch <= 'Z' || '0' <= ch <= '9' || ch in "-._~" then [ch]
    else ['%', "0123456789ABCDEF"[ch as int / 16], "0123456789ABCDEF"[ch as int % 16]]
  }

  lemma OneEscaped(ch: char)
    requires ch as int < 0x80
    ensures |EscapeByte(ch as int)| == |EscapedChar(ch)|
    ensures forall i :: 0 <= i < |EscapedChar(ch)| ==> EscapeByte(ch as int)[i] == EscapedChar(ch)[i] as int
  {
  }

  /** Letters, digits and four marks stand for themselves; any other ASCII character becomes a percent sign and
      its two upper-case hexadecimal digits. */
  lemma PercentEncodes(ch: char, text: string)
    requires ch as int < 0x80
    ensures PercentEncode([ch] + text) == EscapedChar(ch) + PercentEncode(text)
  {
    hide EscapedChar, EscapeByte;
    EncodeAllFront([ch] + text);
    assert ([ch] + text)[1..] == text;
    assert Encode(ch) == [ch as int];
    var bytes := EncodeAll([ch] + text);
    assert bytes == [ch as int] + EncodeAll(text);
    assert bytes[1..] == EncodeAll(text);
    OneEscaped(ch);
  }

  lemma {:induction false} UnescapePlain(bytes: seq<Byte>)
    requires 0x25 !in bytes
    ensures Unescape(bytes) == bytes
  {
    if bytes != [] {
      UnescapePlain(bytes[1..]);
    }
  }

  lemma {:induction false} UnescapeShrinks(bytes: seq<Byte>)
    ensures |Unescape(bytes)| <= |bytes|
    decreases |bytes|
  {
    hide HexValue;
    if bytes != [] {
      UnescapeShrinks(bytes[1..]);
      if |bytes| >= 3 {
        UnescapeShrinks(bytes[3..]);
      }
    }
  }

  /** Decoding never lengthens a text, in bytes. */
  lemma DecodingShrinks(s: string)
    ensures PercentDecode(s).Some? ==> |EncodeAll(PercentDecode(s).value)| <= |EncodeAll(s)|
  {
    UnescapeShrinks(EncodeAll(s));
    if PercentDecode(s).Some? {
      BytesReadBack(Unescape(EncodeAll(s)));
    }
  }

  /** A text without percent signs stands for itself. */
  lemma PlainDecodes(s: string)
    requires forall ch :: ch in s ==> ch as int < 0x80 && ch != '%'
    ensures PercentDecode(s) == Some(s)
  {
    AsciiBytes(s);
    forall i | 0 <= i < |s| ensures EncodeAll(s)[i] != 0x25 { assert s[i] in s; }
    UnescapePlain(EncodeAll(s));
    FromBytesInverts(s);
  }
}
