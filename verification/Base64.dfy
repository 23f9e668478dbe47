/** Base64 for clipboard payloads, section 4 of RFC 4648. Texts are the bytes of their characters. */
module Base64 {
  import opened Types
  import opened Screens

  const PAD: Byte := 0x3d

  type Sextet = v: int | 0 <= v < 64

  /** The alphabet: A to Z, a to z, 0 to 9, + and /. */
  function CharOf(v: Sextet): (b: Byte)
    ensures b != PAD && !IsSpace(b)
  {
    if v < 26 then 0x41 + v
    else if v < 52 then 0x61 + (v - 26)
    else if v < 62 then 0x30 + (v - 52)
    else if v == 62 then 0x2b else 0x2f
  }

  function ValueOf(b: Byte): (v: Option<Sextet>)
    ensures v.Some? ==> CharOf(v.value) == b
  {
    if 0x41 <= b <= 0x5a then Some(b - 0x41)
    else if 0x61 <= b <= 0x7a then Some(b - 0x61 + 26)
    else if 0x30 <= b <= 0x39 then Some(b - 0x30 + 52)
    else if b == 0x2b then Some(62)
    else if b == 0x2f then Some(63)
    else None
  }

  lemma CharValue(v: Sextet)
    ensures ValueOf(CharOf(v)) == Some(v)
  {
  }

  /** ASCII whitespace: space, tab, line feed, form feed and carriage return. */
  predicate IsSpace(b: Byte) {
    b in {0x20, 0x09, 0x0a, 0x0c, 0x0d}
  }

  /** The shifts and masks of the program on bytes, as the arithmetic used below. */
  lemma ShiftsAreArithmetic(a: bv8, b: bv8)
    ensures a >> 2 == a / 4
    ensures ((a & 0x03) << 4) | (b >> 4) == (a % 4) * 16 + b / 16
    ensures ((a & 0x0f) << 2) | (b >> 6) == (a % 16) * 4 + b / 64
    ensures a & 0x3f == a % 64
    ensures a < 64 && b < 64 ==> (a << 2) | (b >> 4) == a * 4 + b / 16
    ensures a < 64 && b < 64 ==> ((a & 0x0f) << 4) | (b >> 2) == (a % 16) * 16 + b / 4
    ensures a < 64 && b < 64 ==> ((a & 0x03) << 6) | b == (a % 4) * 64 + b
  {
  }

  // ---- encoding --------------------------------------------------------------------------------------

  /** One group of up to three bytes. */
  function Group(bytes: seq<Byte>): (r: seq<Byte>)
    requires 1 <= |bytes| <= 3
    ensures |r| == 4
  {
    var b0 := bytes[0];
    var b1 := if |bytes| > 1 then bytes[1] else 0;
    var b2 := if |bytes| > 2 then bytes[2] else 0;
    [CharOf(b0 / 4), CharOf(b0 % 4 * 16 + b1 / 16),
     if |bytes| > 1 then CharOf(b1 % 16 * 4 + b2 / 64) else PAD,
     if |bytes| > 2 then CharOf(b2 % 64) else PAD]
  }

  function Encoded(data: seq<Byte>): seq<Byte> {
    if data == [] then []
    else
      var n := Min(3, |data|);
      Group(data[..n]) + Encoded(data[n..])
  }

  method Encode(data: seq<Byte>) returns (out: seq<Byte>)
    ensures out == Encoded(data)
  {
    hide Group;
    out := [];
    var i := 0;
    while i < |data|
      invariant 0 <= i <= |data|
      invariant out + Encoded(data[i..]) == Encoded(data)
    {
      var end := i + Min(3, |data| - i);
      var chunk := data[i..end];
      assert Encoded(data[i..]) == Group(chunk) + Encoded(data[end..]) by {
        assert data[i..][..end - i] == chunk && data[i..][end - i..] == data[end..];
      }
      assert out + (Group(chunk) + Encoded(data[end..])) == out + Group(chunk) + Encoded(data[end..]);
      out := out + Group(chunk);
      i := end;
    }
  }

  /** The alphabet runs from A to Z, from a to z and from 0 to 9, each in order, and ends with + and /. */
  lemma Alphabet()
    ensures [CharOf(0), CharOf(25), CharOf(26), CharOf(51)] == ['A' as int, 'Z' as int, 'a' as int, 'z' as int]
    ensures [CharOf(52), CharOf(61), CharOf(62), CharOf(63)] == ['0' as int, '9' as int, '+' as int, '/' as int]
    ensures forall v: nat :: v < 61 && v != 25 && v != 51 ==> CharOf(v) + 1 == CharOf(v + 1)
  {
  }

  /** The characters of a group are the digits of its bytes, read as one number, in base 64; missing bytes count
      as zero, and their characters are pads. */
  lemma GroupIsNumber(b0: Byte, b1: Byte, b2: Byte, d0: Sextet, d1: Sextet, d2: Sextet, d3: Sextet)
    ensures Digits4(d0, d1, d2, d3) == (b0 * 256 + b1) * 256 + b2 ==>
              Encoded([b0, b1, b2]) == [CharOf(d0), CharOf(d1), CharOf(d2), CharOf(d3)]
    ensures Digits4(d0, d1, d2, 0) == (b0 * 256 + b1) * 256 ==>
              Encoded([b0, b1]) == [CharOf(d0), CharOf(d1), CharOf(d2), '=' as int]
    ensures Digits4(d0, d1, 0, 0) == b0 * 65536 ==> Encoded([b0]) == [CharOf(d0), CharOf(d1), '=' as int, '=' as int]
  {
    hide CharOf;
    OneGroup([b0, b1, b2]);
    OneGroup([b0, b1]);
    OneGroup([b0]);
    DigitsUnique(b0, b1, b2, d0, d1, d2, d3);
    DigitsUnique(b0, b1, 0, d0, d1, d2, 0);
    DigitsUnique(b0, 0, 0, d0, d1, 0, 0);
  }

  lemma DigitsUnique(b0: Byte, b1: Byte, b2: Byte, d0: Sextet, d1: Sextet, d2: Sextet, d3: Sextet)
    ensures Digits4(d0, d1, d2, d3) == (b0 * 256 + b1) * 256 + b2 ==>
              d0 == b0 / 4 && d1 == b0 % 4 * 16 + b1 / 16 && d2 == b1 % 16 * 4 + b2 / 64 && d3 == b2 % 64
  {
    assert b0 == b0 / 4 * 4 + b0 % 4 && b1 == b1 / 16 * 16 + b1 % 16 && b2 == b2 / 64 * 64 + b2 % 64;
  }

  function Digits4(d0: Sextet, d1: Sextet, d2: Sextet, d3: Sextet): nat {
    ((d0 * 64 + d1) * 64 + d2) * 64 + d3
  }

  lemma OneGroup(bytes: seq<Byte>)
    requires 1 <= |bytes| <= 3
    ensures Encoded(bytes) == Group(bytes)
  {
    hide Group;
    assert bytes[..|bytes|] == bytes && bytes[|bytes|..] == [];
  }

  /** Three bytes at a time. */
  lemma EncodedInGroups(b0: Byte, b1: Byte, b2: Byte, rest: seq<Byte>)
    ensures Encoded([b0, b1, b2] + rest) == Encoded([b0, b1, b2]) + Encoded(rest)
  {
    hide Group;
    var data := [b0, b1, b2] + rest;
    assert data[..3] == [b0, b1, b2] && data[3..] == rest;
    OneGroup([b0, b1, b2]);
  }

  // ---- decoding --------------------------------------------------------------------------------------

  function Clean(text: seq<Byte>): seq<Byte> {
    if text == [] then []
    else if IsSpace(text[|text| - 1]) then Clean(text[..|text| - 1])
    else Clean(text[..|text| - 1]) + [text[|text| - 1]]
  }

  function Join(a: Option<seq<Byte>>, b: Option<seq<Byte>>): Option<seq<Byte>> {
    if a.None? || b.None? then None else Some(a.value + b.value)
  }

  /** One chunk of up to four characters; a pad ends the chunk early, whatever follows it. */
  function Chunk(chars: seq<Byte>): Option<seq<Byte>>
    requires 1 <= |chars| <= 4
  {
    if |chars| < 2 || ValueOf(chars[0]).None? || ValueOf(chars[1]).None? then None
    else
      var c0, c1 := ValueOf(chars[0]).value, ValueOf(chars[1]).value;
      var first: Byte := c0 * 4 + c1 / 16;
      if |chars| == 2 || chars[2] == PAD then Some([first])
      else if ValueOf(chars[2]).None? then None
      else
        var c2 := ValueOf(chars[2]).value;
        var second: Byte := c1 % 16 * 16 + c2 / 4;
        if |chars| == 3 || chars[3] == PAD then Some([first, second])
        else if ValueOf(chars[3]).None? then None
        else
          var third: Byte := c2 % 4 * 64 + ValueOf(chars[3]).value;
          Some([first, second, third])
  }

  function Chunks(chars: seq<Byte>): Option<seq<Byte>> {
    if chars == [] then Some([])
    else
      var n := Min(4, |chars|);
      Join(Chunk(chars[..n]), Chunks(chars[n..]))
  }

  function Decoded(text: seq<Byte>): Option<seq<Byte>> {
    Chunks(Clean(text))
  }

  method Decode(text: seq<Byte>) returns (r: Option<seq<Byte>>)
    ensures r == Decoded(text)
  {
    hide Chunk;
    var clean: seq<Byte> := [];
    for i := 0 to |text|
      invariant clean == Clean(text[..i])
    {
      assert text[..i + 1][..i] == text[..i];
      if !IsSpace(text[i]) {
        clean := clean + [text[i]];
      }
    }
    assert text[..|text|] == text;
    var out: seq<Byte> := [];
    var i := 0;
    JoinNothing(Chunks(clean));
    assert clean[0..] == clean;
    while i < |clean|
      invariant 0 <= i <= |clean|
      invariant Join(Some(out), Chunks(clean[i..])) == Chunks(clean)
    {
      var end := i + Min(4, |clean| - i);
      var piece := Chunk(clean[i..end]);
      ChunksSplit(clean, out, i, end);
      if piece.None? {
        return None;
      }
      out := out + piece.value;
      i := end;
    }
    assert out + [] == out;
    r := Some(out);
  }

  lemma JoinNothing(a: Option<seq<Byte>>)
    ensures Join(Some([]), a) == a && Join(a, Some([])) == a
  {
    if a.Some? {
      assert [] + a.value == a.value && a.value + [] == a.value;
    }
  }

  lemma ChunksSplit(clean: seq<Byte>, out: seq<Byte>, i: nat, end: nat)
    requires i < |clean| && end == i + Min(4, |clean| - i)
    ensures var piece := Chunk(clean[i..end]);
            Join(Some(out), Chunks(clean[i..])) ==
              if piece.None? then None else Join(Some(out + piece.value), Chunks(clean[end..]))
  {
    hide Chunk;
    var rest := clean[i..];
    assert rest[..end - i] == clean[i..end] && rest[end - i..] == clean[end..];
    if Chunk(clean[i..end]).Some? && Chunks(clean[end..]).Some? {
      var a, b := Chunk(clean[i..end]).value, Chunks(clean[end..]).value;
      assert out + (a + b) == out + a + b;
    }
  }

  // ---- round trips -----------------------------------------------------------------------------------

  /** How many characters encode `n` bytes. */
  function EncodedLength(n: nat): nat {
    (n + 2) / 3 * 4
  }

  predicate Padding(chars: seq<Byte>, pads: nat) {
    && pads <= 2 <= |chars|
    && (forall i :: 0 <= i < |chars| - pads ==> ValueOf(chars[i]).Some?)
    && (forall i :: |chars| - pads <= i < |chars| ==> chars[i] == PAD)
  }

  /** The encoding has four characters for each three bytes begun, all of the alphabet but for as many pads
      at the end as bytes are missing there. */
  lemma {:induction false} EncodedShape(data: seq<Byte>)
    requires data != []
    ensures |Encoded(data)| == EncodedLength(|data|)
    ensures Padding(Encoded(data), (3 - |data| % 3) % 3)
  {
    hide Group;
    var n := Min(3, |data|);
    GroupShape(data[..n]);
    if n < |data| {
      EncodedShape(data[n..]);
      assert (|data| - 3) % 3 == |data| % 3;
      var head, tail := Group(data[..n]), Encoded(data[n..]);
      assert forall i :: 4 <= i < |head + tail| ==> (head + tail)[i] == tail[i - 4];
    } else {
      assert data[..n] == data && data[n..] == [];
    }
  }

  lemma GroupShape(bytes: seq<Byte>)
    requires 1 <= |bytes| <= 3
    ensures Padding(Group(bytes), 3 - |bytes|)
  {
    hide CharOf, ValueOf;
    forall v: Sextet ensures ValueOf(CharOf(v)) == Some(v) { CharValue(v); }
  }

  lemma SplitSextets(b0: Byte, b1: Byte, b2: Byte)
    ensures b0 / 4 * 4 + (b0 % 4 * 16 + b1 / 16) / 16 == b0
    ensures (b0 % 4 * 16 + b1 / 16) % 16 * 16 + (b1 % 16 * 4 + b2 / 64) / 4 == b1
    ensures (b1 % 16 * 4 + b2 / 64) % 4 * 64 + b2 % 64 == b2
  {
  }

  lemma GroupDecodes(bytes: seq<Byte>)
    requires 1 <= |bytes| <= 3
    ensures Chunk(Group(bytes)) == Some(bytes)
  {
    hide CharOf, ValueOf;
    forall v: Sextet ensures ValueOf(CharOf(v)) == Some(v) { CharValue(v); }
    var b0 := bytes[0];
    var b1 := if |bytes| > 1 then bytes[1] else 0;
    var b2 := if |bytes| > 2 then bytes[2] else 0;
    SplitSextets(b0, b1, b2);
    assert bytes == if |bytes| == 1 then [b0] else if |bytes| == 2 then [b0, b1] else [b0, b1, b2];
  }

  lemma {:induction false} ChunksInvertEncoding(data: seq<Byte>)
    ensures Chunks(Encoded(data)) == Some(data)
  {
    hide Group, Chunk;
    if data != [] {
      var n := Min(3, |data|);
      var group, rest := Group(data[..n]), Encoded(data[n..]);
      GroupDecodes(data[..n]);
      ChunksInvertEncoding(data[n..]);
      assert (group + rest)[..4] == group && (group + rest)[4..] == rest;
      assert data[..n] + data[n..] == data;
    }
  }

  lemma {:induction false} CleanKeeps(text: seq<Byte>)
    requires forall b :: b in text ==> !IsSpace(b)
    ensures Clean(text) == text
  {
    if text != [] {
      CleanKeeps(text[..|text| - 1]);
    }
  }

  lemma EncodedIsClean(data: seq<Byte>)
    ensures Clean(Encoded(data)) == Encoded(data)
  {
    if data != [] {
      EncodedShape(data);
      var text := Encoded(data);
      forall b | b in text ensures !IsSpace(b) {
        var i :| 0 <= i < |text| && text[i] == b;
      }
      CleanKeeps(text);
    }
  }

  /** Decoding inverts encoding. */
  lemma RoundTrip(data: seq<Byte>)
    ensures Decoded(Encoded(data)) == Some(data)
  {
    EncodedIsClean(data);
    ChunksInvertEncoding(data);
  }

  lemma {:induction false} CleanAppend(a: seq<Byte>, b: seq<Byte>)
    ensures Clean(a + b) == Clean(a) + Clean(b)
  {
    if b == [] {
      assert a + b == a;
    } else {
      assert (a + b)[..|a + b| - 1] == a + b[..|b| - 1];
      CleanAppend(a, b[..|b| - 1]);
    }
  }

  lemma {:induction false} SpacesVanish(spaces: seq<Byte>)
    requires forall b :: b in spaces ==> IsSpace(b)
    ensures Clean(spaces) == []
  {
    if spaces != [] {
      SpacesVanish(spaces[..|spaces| - 1]);
    }
  }

  /** Whitespace inserted anywhere never changes what a text decodes to. */
  lemma WhitespaceIrrelevant(before: seq<Byte>, spaces: seq<Byte>, after: seq<Byte>)
    requires forall b :: b in spaces ==> IsSpace(b)
    ensures Decoded(before + spaces + after) == Decoded(before + after)
  {
    CleanAppend(before + spaces, after);
    CleanAppend(before, spaces);
    SpacesVanish(spaces);
    CleanAppend(before, after);
    assert Clean(before) + [] == Clean(before);
  }

  /** Texts in the form the standard prescribes: whole groups, padded at the very end only, with the bits
      that the pads leave over all zero. */
  predicate Canonical(chars: seq<Byte>) {
    || chars == []
    || (|chars| >= 4 && (FullGroup(chars[..4]) || (PaddedGroup(chars[..4]) && |chars| == 4)) && Canonical(chars[4..]))
  }

  predicate FullGroup(chars: seq<Byte>) {
    |chars| == 4 && forall i :: 0 <= i < 4 ==> ValueOf(chars[i]).Some?
  }

  predicate PaddedGroup(chars: seq<Byte>) {
    && |chars| == 4 && chars[3] == PAD && ValueOf(chars[0]).Some? && ValueOf(chars[1]).Some?
    && if chars[2] == PAD then ValueOf(chars[1]).value % 16 == 0
       else ValueOf(chars[2]).Some? && ValueOf(chars[2]).value % 4 == 0
  }

  lemma SplitBytes(c0: Sextet, c1: Sextet, c2: Sextet, c3: Sextet)
    ensures var b0, b1, b2 := c0 * 4 + c1 / 16, c1 % 16 * 16 + c2 / 4, c2 % 4 * 64 + c3;
            && b0 < 256 && b1 < 256 && b2 < 256
            && b0 / 4 == c0 && b0 % 4 * 16 + b1 / 16 == c1 && b1 % 16 * 4 + b2 / 64 == c2 && b2 % 64 == c3
  {
  }

  lemma PadsDecode()
    ensures ValueOf(PAD).None?
  {
  }

  lemma GroupCanonical(chars: seq<Byte>)
    requires FullGroup(chars) || PaddedGroup(chars)
    ensures Chunk(chars).Some? && 1 <= |Chunk(chars).value| <= 3 && Group(Chunk(chars).value) == chars
    ensures |Chunk(chars).value| == 3 <==> FullGroup(chars)
  {
    hide CharOf, ValueOf;
    PadsDecode();
    var c0, c1 := ValueOf(chars[0]).value, ValueOf(chars[1]).value;
    var c2: Sextet := if ValueOf(chars[2]).Some? then ValueOf(chars[2]).value else 0;
    var c3: Sextet := if ValueOf(chars[3]).Some? then ValueOf(chars[3]).value else 0;
    SplitBytes(c0, c1, c2, c3);
  }

  lemma CanonicalGroup(bytes: seq<Byte>)
    requires 1 <= |bytes| <= 3
    ensures if |bytes| == 3 then FullGroup(Group(bytes)) else PaddedGroup(Group(bytes))
  {
    hide CharOf, ValueOf;
    forall v: Sextet ensures ValueOf(CharOf(v)) == Some(v) { CharValue(v); }
  }

  lemma {:induction false} CanonicalChunks(chars: seq<Byte>)
    ensures Canonical(chars) <==> Chunks(chars).Some? && Encoded(Chunks(chars).value) == chars
    decreases |chars|
  {
    hide Group, Chunk, FullGroup, PaddedGroup;
    if Canonical(chars) && chars != [] {
      CanonicalChunks(chars[4..]);
      GroupCanonical(chars[..4]);
      var a, b := Chunk(chars[..4]).value, Chunks(chars[4..]).value;
      if |chars| == 4 {
        assert chars[..4] == chars && chars[4..] == [];
        assert a + b == a && a[..|a|] == a && a[|a|..] == [];
        assert Group(a) + [] == Group(a);
      } else {
        PaddedIsNotFull(chars[..4]);
        assert (a + b)[..3] == a && (a + b)[3..] == b;
        assert chars[..4] + chars[4..] == chars;
      }
    } else if chars != [] && Chunks(chars).Some? && Encoded(Chunks(chars).value) == chars {
      EncodingsAreCanonical(Chunks(chars).value);
    }
  }

  lemma PaddedIsNotFull(chars: seq<Byte>)
    ensures !(FullGroup(chars) && PaddedGroup(chars))
  {
  }

  /** Every encoding is canonical, so the two are inverse bijections between byte strings and canonical
      texts. */
  lemma {:induction false} EncodingsAreCanonical(data: seq<Byte>)
    ensures Canonical(Encoded(data))
  {
    hide Group, FullGroup, PaddedGroup;
    if data != [] {
      var n := Min(3, |data|);
      CanonicalGroup(data[..n]);
      EncodingsAreCanonical(data[n..]);
      var group, rest := Group(data[..n]), Encoded(data[n..]);
      assert (group + rest)[..4] == group && (group + rest)[4..] == rest;
    }
  }

  lemma {:induction false} CanonicalIsClean(text: seq<Byte>)
    requires Canonical(text)
    ensures forall b :: b in text ==> !IsSpace(b)
    decreases |text|
  {
    if text != [] {
      CanonicalIsClean(text[4..]);
      assert text == text[..4] + text[4..];
      assert forall i :: 0 <= i < 4 ==> !IsSpace(text[..4][i]);
    }
  }

  /** Encoding inverts decoding exactly on the canonical texts. */
  lemma CanonicalExactly(text: seq<Byte>)
    ensures Canonical(text) <==> Decoded(text).Some? && Encoded(Decoded(text).value) == text
  {
    hide Encoded, Chunks, Clean, Canonical;
    if Canonical(text) {
      CanonicalIsClean(text);
      CleanKeeps(text);
      CanonicalChunks(text);
    } else if Decoded(text).Some? {
      EncodingsAreCanonical(Decoded(text).value);
    }
  }

  // ---- what decodes ----------------------------------------------------------------------------------

  /** The character at index `i` is one of the alphabet; or a pad in the second half of its group; or it is
      the last of its group, behind a pad, where anything goes. */
  predicate Fits(chars: seq<Byte>, i: nat)
    requires i < |chars|
  {
    || ValueOf(chars[i]).Some?
    || (i % 4 >= 2 && chars[i] == PAD)
    || (i % 4 == 3 && chars[i - 1] == PAD)
  }

  ghost predicate Decodable(chars: seq<Byte>) {
    |chars| % 4 != 1 && forall i: nat :: i < |chars| ==> Fits(chars, i)
  }

  lemma ChunkExactly(chars: seq<Byte>)
    requires 1 <= |chars| <= 4
    ensures Chunk(chars).Some? <==> Decodable(chars)
  {
    hide ValueOf;
    PadsDecode();
    if Decodable(chars) {
      assert Fits(chars, 0) && (|chars| > 1 ==> Fits(chars, 1)) && (|chars| > 2 ==> Fits(chars, 2)) &&
             (|chars| > 3 ==> Fits(chars, 3));
    }
  }

  lemma {:induction false} ChunksExactly(chars: seq<Byte>)
    ensures Chunks(chars).Some? <==> Decodable(chars)
    decreases |chars|
  {
    hide Chunk, ValueOf;
    if chars != [] {
      var n := Min(4, |chars|);
      ChunkExactly(chars[..n]);
      ChunksExactly(chars[n..]);
      DecodableSplits(chars, n);
    }
  }

  lemma DecodableSplits(chars: seq<Byte>, n: nat)
    requires chars != [] && n == Min(4, |chars|)
    ensures Decodable(chars) <==> Decodable(chars[..n]) && Decodable(chars[n..])
  {
    hide ValueOf;
    var head, tail := chars[..n], chars[n..];
    forall i: nat | i < |head| ensures Fits(head, i) == Fits(chars, i) {
    }
    forall i: nat | i < |tail| ensures Fits(tail, i) == Fits(chars, i + n) {
      assert (i + 4) % 4 == i % 4;
    }
    if Decodable(head) && Decodable(tail) {
      forall i: nat | i < |chars| ensures Fits(chars, i) {
        if i < n {
          assert Fits(head, i);
        } else {
          assert Fits(tail, i - n);
        }
      }
    }
  }

  /** A text decodes exactly when, without its whitespace, no group has only one character and each
      character is one of the alphabet, or a pad in the second half of its group, or the last of a group
      whose third is a pad. */
  lemma DecodesExactly(text: seq<Byte>)
    ensures Decoded(text).Some? <==> Decodable(Clean(text))
  {
    hide Clean, Chunks, Decodable;
    ChunksExactly(Clean(text));
  }

  lemma OneGroupDecodes(text: seq<Byte>)
    requires 1 <= |text| <= 4 && forall b :: b in text ==> !IsSpace(b)
    ensures Decoded(text) == Chunk(text)
  {
    CleanKeeps(text);
    assert text[..|text|] == text && text[|text|..] == [];
    assert Chunks(text) == Join(Chunk(text), Some([]));
    JoinNothing(Chunk(text));
  }

  lemma OneGroupCanonical(text: seq<Byte>)
    requires 1 <= |text| <= 4
    ensures Canonical(text) <==> FullGroup(text) || PaddedGroup(text)
  {
    hide FullGroup, PaddedGroup;
    if |text| == 4 {
      assert text[..4] == text && text[4..] == [];
    } else {
      ShortGroup(text);
    }
  }

  lemma ShortGroup(text: seq<Byte>)
    requires |text| != 4
    ensures !FullGroup(text) && !PaddedGroup(text)
  {
  }

  /** Decodable is wider than canonical: the pads may be missing, the bits that pads leave over need not be
      zero, and behind a pad even a character outside the alphabet is accepted. */
  lemma DecodesMoreThanCanonical()
    ensures var unpadded, stray, junk := [0x51, 0x52], [0x51, 0x52, PAD, PAD], [0x51, 0x51, PAD, 0x21];
            && !Canonical(unpadded) && !Canonical(stray) && !Canonical(junk)
            && Decoded(unpadded) == Decoded(stray) == Decoded(junk) == Some([0x41])
  {
    hide Decoded, Canonical;
    var unpadded, stray, junk := [0x51, 0x52], [0x51, 0x52, PAD, PAD], [0x51, 0x51, PAD, 0x21];
    OneGroupDecodes(unpadded);
    OneGroupDecodes(stray);
    OneGroupDecodes(junk);
    OneGroupCanonical(unpadded);
    OneGroupCanonical(stray);
    OneGroupCanonical(junk);
  }

  lemma {:induction false} ChunksAppend(a: seq<Byte>, b: seq<Byte>)
    requires |a| % 4 == 0
    ensures Chunks(a + b) == Join(Chunks(a), Chunks(b))
    decreases |a|
  {
    hide Chunk;
    if a == [] {
      assert a + b == b;
      JoinNothing(Chunks(b));
    } else {
      assert (a + b)[..4] == a[..4] && (a + b)[4..] == a[4..] + b;
      ChunksAppend(a[4..], b);
      JoinAssociates(Chunk(a[..4]), Chunks(a[4..]), Chunks(b));
    }
  }

  lemma JoinAssociates(a: Option<seq<Byte>>, b: Option<seq<Byte>>, c: Option<seq<Byte>>)
    ensures Join(a, Join(b, c)) == Join(Join(a, b), c)
  {
    if a.Some? && b.Some? && c.Some? {
      assert a.value + (b.value + c.value) == a.value + b.value + c.value;
    }
  }

  lemma LengthIsWhole(x: seq<Byte>)
    ensures |Encoded(x)| % 4 == 0
  {
    if x != [] {
      EncodedShape(x);
    }
  }

  /** A pad does not end a text: encodings put one after the other decode to the bytes put one after the
      other, although the result is canonical only if the first needed no pad. */
  lemma ConcatenationsDecode(x: seq<Byte>, y: seq<Byte>)
    ensures Decoded(Encoded(x) + Encoded(y)) == Some(x + y)
    ensures y != [] && |x| % 3 != 0 ==> Encoded(x) + Encoded(y) != Encoded(x + y)
  {
    LengthIsWhole(x);
    hide Encoded, Clean, Chunks, EncodedLength;
    CleanAppend(Encoded(x), Encoded(y));
    EncodedIsClean(x);
    EncodedIsClean(y);
    ChunksInvertEncoding(x);
    ChunksInvertEncoding(y);
    ChunksAppend(Encoded(x), Encoded(y));
    if y != [] && |x| % 3 != 0 {
      PadWithin(x, y);
    }
  }

  /** In one encoding no pad has a character of the alphabet after it. */
  lemma PadWithin(x: seq<Byte>, y: seq<Byte>)
    requires y != [] && |x| % 3 != 0
    ensures Encoded(x) + Encoded(y) != Encoded(x + y)
  {
    hide Encoded, Clean;
    var text := Encoded(x) + Encoded(y);
    EncodedShape(x);
    EncodedShape(y);
    EncodedShape(x + y);
    var k := |Encoded(x)| - 1;
    assert text[k] == Encoded(x)[k] == PAD && text[k + 1] == Encoded(y)[0];
  }
}
