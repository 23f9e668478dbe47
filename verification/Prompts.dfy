/** What the chat entry makes of a prompt: which prompts are read back as their text and one Enter. */
module Prompts {
  import opened Types
  import opened Screens
  import opened Utf8
  import opened Percent
  import opened InputEncoder
  import opened MenuProof
  import opened Adapters

  /** Between these a terminal program takes everything as text. */
  const PASTE_START: seq<Byte> := [0x1b, 0x5b, 0x32, 0x30, 0x30, 0x7e]
  const PASTE_END: seq<Byte> := [0x1b, 0x5b, 0x32, 0x30, 0x31, 0x7e]

  /** Where a paste ends, if it does. */
  function FindEnd(bytes: seq<Byte>): (r: Option<nat>)
    ensures r.Some? ==> r.value + 6 <= |bytes| && bytes[r.value..r.value + 6] == PASTE_END
  {
    if |bytes| < 6 then None
    else if bytes[..6] == PASTE_END then Some(0)
    else match FindEnd(bytes[1..])
      case None => None
      case Some(n) => Some(n + 1)
  }

  /** The chat entry after all the bytes: keys are pressed and pasted text is inserted. */
  function Chat(e: Entry, bytes: seq<Byte>): Entry
    decreases |bytes|
  {
    if bytes == [] then e
    else if !e.Editing? then Abandoned
    else if PASTE_START <= bytes then
      match FindEnd(bytes[6..])
      case None => Abandoned
      case Some(n) =>
        match FromBytes(bytes[6..6 + n])
        case None => Abandoned
        case Some(text) => Chat(Editing(e.text + text), bytes[12 + n..])
    else match FirstKey(bytes)
      case None => Abandoned
      case Some((key, n)) => Chat(Type(e, key), bytes[n..])
  }

  // ---- lengths -----------------------------------------------------------------------------------------

  /** What one typed key adds to the text is the bytes it took. */
  lemma KeyLength(e: Entry, bytes: seq<Byte>)
    requires e.Editing? && bytes != [] && FirstKey(bytes).Some?
    ensures var (key, n) := FirstKey(bytes).value;
            var next := Type(e, key);
            && (next.Editing? ==> |EncodeAll(next.text)| <= |EncodeAll(e.text)| + n)
            && (next.Editing? && key.Backspace? ==> |EncodeAll(next.text)| <= |EncodeAll(e.text)|)
            && (next.Editing? ==> 0x1b !in bytes[..n])
            && (next.Sent? ==> next.text == e.text && n == 1 && bytes[0] != 0x1b)
  {
    hide Encode, DecodeScalar, SequenceLength;
    var (key, n) := FirstKey(bytes).value;
    match key {
      case Typed(ch) =>
        KeyEncodes(bytes);
        EncodeAllAppend(e.text, [ch]);
        OneEncoded(ch);
      case Space =>
        EncodeAllAppend(e.text, " ");
        OneEncoded(' ');
        SmallEncodes(0x20);
        assert bytes[..1] == [0x20];
      case Backspace =>
        assert bytes[..1] == [0x7f];
      case _ =>
    }
  }

  lemma KeyEncodes(bytes: seq<Byte>)
    requires bytes != [] && FirstKey(bytes).Some? && FirstKey(bytes).value.0.Typed?
    ensures var (key, n) := FirstKey(bytes).value; Encode(key.ch) == bytes[..n] && 0x1b !in bytes[..n]
  {
    hide DecodeScalar, Encode;
    if bytes[0] < 0x80 {
      SmallEncodes(bytes[0]);
      assert bytes[..1] == [bytes[0]];
    } else {
      DecodedIsEncoding(bytes[..SequenceLength(bytes[0])]);
    }
  }

  lemma ChatOver(e: Entry, bytes: seq<Byte>)
    requires !e.Editing?
    ensures Chat(e, bytes) == if bytes == [] then e else Abandoned
  {
  }

  /** A submitted text is no longer than what was there and the bytes but one; and if there was an escape
      among them, it began and ended a paste, which take twelve. */
  lemma {:induction false} ChatLength(e: Entry, bytes: seq<Byte>, text: string)
    requires e.Editing? && Chat(e, bytes) == Sent(text)
    ensures |EncodeAll(text)| + 1 <= |EncodeAll(e.text)| + |bytes|
    ensures 0x1b in bytes ==> |EncodeAll(text)| + 13 <= |EncodeAll(e.text)| + |bytes|
    decreases |bytes|
  {
    hide FirstKey, Type, FromBytes, EncodeAll, FindEnd;
    if bytes == [] {
    } else if PASTE_START <= bytes {
      var n := FindEnd(bytes[6..]).value;
      var pasted := FromBytes(bytes[6..6 + n]).value;
      BytesReadBack(bytes[6..6 + n]);
      EncodeAllAppend(e.text, pasted);
      ChatLength(Editing(e.text + pasted), bytes[12 + n..], text);
    } else {
      var (key, n) := FirstKey(bytes).value;
      KeyLength(e, bytes);
      var next := Type(e, key);
      if next.Editing? {
        ChatLength(next, bytes[n..], text);
        assert bytes == bytes[..n] + bytes[n..];
      } else {
        ChatOver(next, bytes[n..]);
      }
    }
  }

  // ---- one line ----------------------------------------------------------------------------------------

  /** Not a control character of the first kind, nor DEL. */
  predicate Plain(ch: char) {
    ch as int >= 0x20 && ch as int != 0x7f
  }

  lemma PlainKey(ch: char, rest: seq<Byte>)
    requires Plain(ch)
    ensures var bytes := Encode(ch) + rest;
            && bytes[0] != 0x1b && FirstKey(bytes) == Some((TypedKey(ch), |Encode(ch)|))
            && bytes[|Encode(ch)|..] == rest
  {
    var bytes := Encode(ch) + rest;
    if ch as int >= 0x80 {
      hide DecodeScalar;
      EncodeShaped(ch);
      assert bytes[..|Encode(ch)|] == Encode(ch);
    }
  }

  lemma {:induction false} ChatTypes(before: string, text: string, rest: seq<Byte>)
    requires forall ch :: ch in text ==> Plain(ch)
    ensures Chat(Editing(before), EncodeAll(text) + rest) == Chat(Editing(before + text), rest)
    decreases |text|
  {
    hide FirstKey, Encode, EncodeAll, FindEnd, FromBytes;
    if text == "" {
      NothingEncoded();
      assert [] + rest == rest && before + text == before;
    } else {
      EncodeAllFront(text);
      var more := EncodeAll(text[1..]) + rest;
      assert EncodeAll(text) + rest == Encode(text[0]) + more;
      PlainKey(text[0], more);
      ChatTypes(before + [text[0]], text[1..], rest);
      assert (before + [text[0]]) + text[1..] == before + text;
      TypesItself(before, text[0]);
    }
  }

  lemma TypesItself(before: string, ch: char)
    ensures Type(Editing(before), TypedKey(ch)) == Editing(before + [ch])
  {
  }

  lemma NotPlainKey(bad: char, rest: seq<Byte>)
    requires !Plain(bad) && bad as int != 0x1b
    ensures var bytes := [bad as int] + rest;
            && !(PASTE_START <= bytes) && bytes[1..] == rest
            && FirstKey(bytes) == if bad as int == 0x0d then Some((Enter, 1))
                                  else if bad as int == 0x7f then Some((Backspace, 1)) else None
  {
    hide DecodeScalar;
  }

  lemma ChatOneKey(e: Entry, bytes: seq<Byte>)
    requires e.Editing? && bytes != [] && !(PASTE_START <= bytes)
    ensures FirstKey(bytes).None? ==> Chat(e, bytes) == Abandoned
    ensures FirstKey(bytes).Some? ==>
              Chat(e, bytes) == Chat(Type(e, FirstKey(bytes).value.0), bytes[FirstKey(bytes).value.1..])
  {
    hide FirstKey, Type;
  }

  /** A character that is not plain loses bytes, or ends or spoils the entry. */
  lemma NotPlainLoses(before: string, bad: char, rest: seq<Byte>, text: string)
    requires !Plain(bad) && rest != [] && Chat(Editing(before), [bad as int] + rest) == Sent(text)
    ensures |EncodeAll(text)| + 1 < |EncodeAll(before)| + 1 + |rest|
  {
    hide EncodeAll, Chat, FirstKey, Plain;
    NotPlainIsSmall(bad);
    var bytes: seq<Byte> := [bad as int] + rest;
    if bad as int == 0x1b {
      ChatLength(Editing(before), bytes, text);
    } else {
      NotPlainKey(bad, rest);
      ChatOneKey(Editing(before), bytes);
      if bad as int == 0x7f {
        KeyLength(Editing(before), bytes);
        ChatLength(Type(Editing(before), Backspace), rest, text);
      } else {
        ChatOver(Sent(before), rest);
      }
    }
  }

  lemma {:induction false} FirstNotPlain(text: string) returns (i: nat)
    requires exists ch :: ch in text && !Plain(ch)
    ensures i < |text| && !Plain(text[i]) && forall ch :: ch in text[..i] ==> Plain(ch)
  {
    if !Plain(text[0]) {
      i := 0;
    } else {
      assert text == [text[0]] + text[1..];
      var j := FirstNotPlain(text[1..]);
      i := j + 1;
      assert text[..i] == [text[0]] + text[1..][..j];
    }
  }

  lemma OneLineExactly(prompt: string)
    ensures Chat(Editing(""), EncodeAll(prompt) + [0x0d]) == Sent(prompt) <==> forall ch :: ch in prompt ==> Plain(ch)
  {
    hide EncodeAll, Chat, Plain;
    if forall ch :: ch in prompt ==> Plain(ch) {
      ChatTypes("", prompt, [0x0d]);
      assert "" + prompt == prompt;
      EnterSubmits(prompt);
    } else {
      var i := FirstNotPlain(prompt);
      var good, bad, more := prompt[..i], prompt[i], prompt[i + 1..];
      assert prompt == good + ([bad] + more);
      EncodeAllAppend(good, [bad] + more);
      EncodeAllAppend([bad], more);
      OneEncoded(bad);
      NotPlainIsSmall(bad);
      var rest := EncodeAll(more) + [0x0d];
      assert EncodeAll(prompt) + [0x0d] == EncodeAll(good) + ([bad as int] + rest);
      ChatTypes("", good, [bad as int] + rest);
      assert "" + good == good;
      if Chat(Editing(good), [bad as int] + rest) == Sent(prompt) {
        NotPlainLoses(good, bad, rest, prompt);
      }
    }
  }

  lemma NotPlainIsSmall(ch: char)
    requires !Plain(ch)
    ensures (ch as int) < 0x80 && Encode(ch) == [ch as int]
  {
  }

  lemma EnterSubmits(text: string)
    ensures Chat(Editing(text), [0x0d]) == Sent(text)
  {
    assert [0x0d][1..] == [];
  }

  // ---- several lines -----------------------------------------------------------------------------------

  lemma {:induction false} EndFound(bytes: seq<Byte>, rest: seq<Byte>)
    ensures FindEnd(bytes).None? ==> FindEnd(bytes + PASTE_END + rest) == Some(|bytes|)
    ensures FindEnd(bytes).Some? ==> FindEnd(bytes + PASTE_END + rest) == FindEnd(bytes)
  {
    var all := bytes + PASTE_END + rest;
    if bytes == [] {
      assert all[..6] == PASTE_END;
    } else {
      assert all[1..] == bytes[1..] + PASTE_END + rest;
      if |bytes| < 6 {
        assert all[|bytes|] == 0x1b && all[..6][|bytes|] == 0x1b;
        EndFound(bytes[1..], rest);
      } else {
        assert all[..6] == bytes[..6];
        if bytes[..6] != PASTE_END {
          EndFound(bytes[1..], rest);
        }
      }
    }
  }

  lemma ChatPastes(before: string, inside: seq<Byte>)
    ensures Chat(Editing(before), PASTE_START + inside) ==
              if FindEnd(inside).None? || FromBytes(inside[..FindEnd(inside).value]).None? then Abandoned
              else Chat(Editing(before + FromBytes(inside[..FindEnd(inside).value]).value), inside[FindEnd(inside).value + 6..])
  {
    hide FirstKey, Type, FromBytes, FindEnd;
    var all := PASTE_START + inside;
    assert all[..6] == PASTE_START && all[6..] == inside;
    if FindEnd(inside).Some? {
      var n := FindEnd(inside).value;
      assert all[6..6 + n] == inside[..n] && all[12 + n..] == inside[n + 6..];
    }
  }

  lemma PastedExactly(prompt: string)
    ensures Chat(Editing(""), PASTE_START + (EncodeAll(prompt) + PASTE_END + [0x0d])) == Sent(prompt) <==>
              FindEnd(EncodeAll(prompt)).None?
  {
    hide EncodeAll, FromBytes, FindEnd, Chat;
    var bytes := EncodeAll(prompt);
    var inside := bytes + PASTE_END + [0x0d];
    EndFound(bytes, [0x0d]);
    ChatPastes("", inside);
    var n := FindEnd(inside).value;
    var pasted, rest := inside[..n], inside[n + 6..];
    if FindEnd(bytes).None? {
      assert pasted == bytes && rest == [0x0d];
      FromBytesInverts(prompt);
      assert "" + prompt == prompt;
      EnterSubmits(prompt);
    } else if Chat(Editing(""), PASTE_START + inside) == Sent(prompt) {
      BytesReadBack(pasted);
      var text := FromBytes(pasted).value;
      assert "" + text == text;
      assert rest[|rest| - 7] == 0x1b;
      ChatLength(Editing(text), rest, prompt);
    }
  }

  /** A prompt is read back as exactly its text, submitted once, if and only if: on one line, it contains no
      control character of ASCII, of which a carriage return would submit it early, an escape would leave it and
      DEL would erase; on several lines, it does not contain the sequence that ends a paste. */
  lemma PromptReadExactly(prompt: string)
    ensures Chat(Editing(""), PromptBytes(prompt)) == Sent(prompt) <==>
              if '\n' in prompt then FindEnd(EncodeAll(prompt)).None? else forall ch :: ch in prompt ==> Plain(ch)
  {
    hide Chat, EncodeAll, FindEnd, Plain;
    var bytes := EncodeAll(prompt);
    if '\n' in prompt {
      PastedExactly(prompt);
      assert PromptBytes(prompt) == PASTE_START + (bytes + PASTE_END + [0x0d]);
    } else {
      OneLineExactly(prompt);
    }
  }
}
