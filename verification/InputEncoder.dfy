/** The keystroke encoder: a small compiler from answers to keys. */
module InputEncoder {
  import opened Types
  import opened Text
  import opened Screens
  import opened Utf8
  import opened Questions

  datatype RespondError =
    NoSuchTask | NotBlocked | AlreadyConsumed | StateMismatch | InvalidResponse | Disconnected | WrongRequest

  /** Keys of the terminal interface. */
  datatype Key = Up | Down | Space | Enter | Escape_ | Backspace | Typed(ch: char)

  function KeyBytes(key: Key): seq<Byte> {
    match key
    case Up => [0x1b, 0x5b, 0x41]
    case Down => [0x1b, 0x5b, 0x42]
    case Space => [0x20]
    case Enter => [0x0d]
    case Escape_ => [0x1b]
    case Backspace => [0x7f]
    case Typed(ch) => Encode(ch)
  }

  function BytesOf(keys: seq<Key>): seq<Byte> {
    if keys == [] then [] else KeyBytes(keys[0]) + BytesOf(keys[1..])
  }

  lemma {:induction false} BytesAppend(a: seq<Key>, b: seq<Key>)
    ensures BytesOf(a + b) == BytesOf(a) + BytesOf(b)
  {
    if a == [] {
      assert a + b == b;
    } else {
      assert (a + b)[1..] == a[1..] + b;
      BytesAppend(a[1..], b);
    }
  }

  // ---- reading the bytes as keys -----------------------------------------------------------------

  /** Control characters, C0, DEL and C1. */
  predicate IsControl(ch: char) {
    ch as int < 0x20 || 0x7f <= ch as int < 0xa0
  }

  /** The first key in a stream of bytes, and how many of them it takes. */
  function FirstKey(bytes: seq<Byte>): (r: Option<(Key, nat)>)
    requires bytes != []
    ensures r.Some? ==> 1 <= r.value.1 <= |bytes|
  {
    if bytes[0] == 0x1b then
      if |bytes| >= 3 && bytes[1] == 0x5b && bytes[2] == 0x41 then Some((Up, 3))
      else if |bytes| >= 3 && bytes[1] == 0x5b && bytes[2] == 0x42 then Some((Down, 3))
      else Some((Escape_, 1))
    else if bytes[0] == 0x20 then Some((Space, 1))
    else if bytes[0] == 0x0d then Some((Enter, 1))
    else if bytes[0] == 0x7f then Some((Backspace, 1))
    else if 0x20 < bytes[0] < 0x7f then Some((Typed(bytes[0] as char), 1))
    else
      var n := SequenceLength(bytes[0]);
      if n == 0 || n > |bytes| || !Shaped(bytes[..n]) || DecodeScalar(bytes[..n]).None? then None
      else Some((Typed(DecodeScalar(bytes[..n]).value), n))
  }

  /** The keys a terminal program sees in a stream of bytes; it stops at anything it does not know. */
  function KeysIn(bytes: seq<Byte>): seq<Key> {
    if bytes == [] then []
    else match FirstKey(bytes)
      case None => []
      case Some((key, n)) => [key] + KeysIn(bytes[n..])
  }

  /** Keys whose bytes cannot be mistaken for anything else, whatever follows. */
  predicate Unambiguous(key: Key) {
    !key.Escape_? && (key.Typed? ==> !IsControl(key.ch) && key.ch != ' ')
  }

  lemma OneKeyRead(key: Key, rest: seq<Byte>)
    requires Unambiguous(key)
    ensures KeysIn(KeyBytes(key) + rest) == [key] + KeysIn(rest)
  {
    var bytes := KeyBytes(key) + rest;
    if key.Typed? && key.ch as int >= 0x80 {
      EncodeShaped(key.ch);
      var n := |Encode(key.ch)|;
      assert bytes[..n] == Encode(key.ch) && bytes[n..] == rest && bytes[0] == Encode(key.ch)[0];
    } else {
      assert bytes[|KeyBytes(key)|..] == rest;
    }
  }

  /** Reading inverts writing. */
  lemma {:induction false} KeysRead(keys: seq<Key>)
    requires forall key :: key in keys ==> Unambiguous(key)
    ensures KeysIn(BytesOf(keys)) == keys
  {
    if keys != [] {
      KeysRead(keys[1..]);
      OneKeyRead(keys[0], BytesOf(keys[1..]));
    }
  }

  // ---- navigation -----------------------------------------------------------------------------------

  function Repeat(key: Key, n: nat): seq<Key> {
    seq(n, _ => key)
  }

  function Arrows(from: nat, to_: nat): seq<Key> {
    if to_ > from then Repeat(Down, to_ - from) else Repeat(Up, from - to_)
  }

  lemma {:induction false} RepeatBytes(key: Key, n: nat)
    ensures BytesOf(Repeat(key, n + 1)) == BytesOf(Repeat(key, n)) + KeyBytes(key)
  {
    assert Repeat(key, n + 1) == Repeat(key, n) + [key];
    BytesAppend(Repeat(key, n), [key]);
    assert [key][1..] == [];
  }

  /** Arrow keys from one row to another. */
  method Navigate(from: nat, to_: nat) returns (bytes: seq<Byte>)
    ensures bytes == BytesOf(Arrows(from, to_))
  {
    bytes := [];
    if to_ > from {
      for i := 0 to to_ - from
        invariant bytes == BytesOf(Repeat(Down, i))
      {
        RepeatBytes(Down, i);
        bytes := bytes + [0x1b, 0x5b, 0x42];
      }
    } else {
      for i := 0 to from - to_
        invariant bytes == BytesOf(Repeat(Up, i))
      {
        RepeatBytes(Up, i);
        bytes := bytes + [0x1b, 0x5b, 0x41];
      }
    }
  }

  /** Arrow keys to a row, then Enter. */
  function Select(from: nat, to_: nat): seq<Key> {
    Arrows(from, to_) + [Enter]
  }

  method NavigateAndSelect(from: nat, to_: nat) returns (bytes: seq<Byte>)
    ensures bytes == BytesOf(Select(from, to_))
  {
    bytes := Navigate(from, to_);
    bytes := bytes + [0x0d];
    BytesAppend(Arrows(from, to_), [Enter]);
    assert [Enter][1..] == [];
  }

  // ---- choosing rows ----------------------------------------------------------------------------------

  /** The first row from `i` on with this label, the write-in row excluded. */
  function FindRow(rows: seq<string>, name: string, writeIn: Option<nat>, i: nat): (r: Option<nat>)
    requires i <= |rows|
    ensures r.Some? ==> i <= r.value < |rows|
    decreases |rows| - i
  {
    if i == |rows| then None
    else if Some(i) != writeIn && Trim(rows[i]) == Trim(name) then Some(i)
    else FindRow(rows, name, writeIn, i + 1)
  }

  predicate Answers(rows: seq<string>, name: string, writeIn: Option<nat>, i: nat)
    requires i < |rows|
  {
    Some(i) != writeIn && Trim(rows[i]) == Trim(name)
  }

  lemma {:induction false} FindRowFirst(rows: seq<string>, name: string, writeIn: Option<nat>, i: nat)
    requires i <= |rows|
    ensures var r := FindRow(rows, name, writeIn, i);
            && (r.Some? ==>
                  && Answers(rows, name, writeIn, r.value)
                  && forall j :: i <= j < r.value ==> !Answers(rows, name, writeIn, j))
            && (r.None? ==> forall j :: i <= j < |rows| ==> !Answers(rows, name, writeIn, j))
    decreases |rows| - i
  {
    hide Trim;
    if i < |rows| {
      FindRowFirst(rows, name, writeIn, i + 1);
    }
  }

  function ResolveOption(name: string, details: QuestionDetails): Option<nat> {
    FindRow(details.MenuRows(), name, details.WriteInRow(), 0)
  }

  predicate StartsWith(s: string, prefix: string) {
    |prefix| <= |s| && s[..|prefix|] == prefix
  }

  function FindPrefix(rows: seq<string>, prefix: string, i: nat): (r: Option<nat>)
    requires i <= |rows|
    ensures r.Some? ==> i <= r.value < |rows|
    decreases |rows| - i
  {
    if i == |rows| then None
    else if StartsWith(TrimStart(rows[i]), prefix) then Some(i)
    else FindPrefix(rows, prefix, i + 1)
  }

  lemma {:induction false} FindPrefixFirst(rows: seq<string>, prefix: string, i: nat)
    requires i <= |rows|
    ensures var r := FindPrefix(rows, prefix, i);
            && (r.Some? ==>
                  && StartsWith(TrimStart(rows[r.value]), prefix)
                  && forall j :: i <= j < r.value ==> !StartsWith(TrimStart(rows[j]), prefix))
            && (r.None? ==> forall j :: i <= j < |rows| ==> !StartsWith(TrimStart(rows[j]), prefix))
    decreases |rows| - i
  {
    hide TrimStart, StartsWith;
    if i < |rows| {
      FindPrefixFirst(rows, prefix, i + 1);
    }
  }

  // ---- menus ------------------------------------------------------------------------------------------

  /** The row that answers a menu, if the response names one. */
  function MenuTarget(response: RequestResponse, rows: seq<string>): (r: Option<nat>)
    ensures r.Some? ==> r.value < |rows|
  {
    match response
    case SelectOption(option) => FindRow(rows, option, None, 0)
    case SelectMultiple(options) => if |options| == 1 then FindRow(rows, options[0], None, 0) else None
    case ApproveResponse => FindPrefix(rows, "Yes", 0)
    case DenyResponse => FindPrefix(rows, "No", 0)
    case TextInput(_) => None
  }

  /** Answers a cursor-driven menu relative to its live cursor row. */
  function EncodeMenuChoice(response: RequestResponse, rows: seq<string>, selected: nat): Result<seq<Key>, RespondError> {
    if selected >= |rows| then Err(StateMismatch)
    else if MenuTarget(response, rows).None? then Err(InvalidResponse)
    else Ok(Select(selected, MenuTarget(response, rows).value))
  }

  // ---- multiple choice ----------------------------------------------------------------------------------

  /** The rows that the wanted labels name; nothing if one of them names no row. */
  function Targets(wanted: seq<string>, details: QuestionDetails): Option<set<nat>> {
    if wanted == [] then Some({})
    else
      var before := Targets(wanted[..|wanted| - 1], details);
      var last := ResolveOption(wanted[|wanted| - 1], details);
      if before.None? || last.None? then None else Some(before.value + {last.value})
  }

  /** From row `i` on: go to each row whose mark is wrong and toggle it; then submit. */
  function ToggleFrom(n: nat, want: set<nat>, have: set<nat>, cursor: nat, i: nat): seq<Key>
    requires i <= n
    decreases n - i
  {
    if i == n then [Enter]
    else if (i in want) != (i in have) then Arrows(cursor, i) + [Space] + ToggleFrom(n, want, have, i, i + 1)
    else ToggleFrom(n, want, have, cursor, i + 1)
  }

  function Rows(indices: seq<nat>): set<nat> {
    set i: nat | i in indices
  }

  function Checked(details: QuestionDetails): set<nat>
    requires details.MultipleChoice?
  {
    Rows(details.checkedIndices)
  }

  function MultiKeys(wanted: seq<string>, details: QuestionDetails): Result<seq<Key>, RespondError> {
    if !details.MultipleChoice? || wanted == [] || Targets(wanted, details).None? then Err(InvalidResponse)
    else Ok(ToggleFrom(|details.options|, Targets(wanted, details).value, Checked(details), details.cursorIndex, 0))
  }

  method ResolveTargets(wanted: seq<string>, details: QuestionDetails) returns (targets: Option<seq<nat>>)
    ensures targets.None? <==> Targets(wanted, details).None?
    ensures targets.Some? ==> Rows(targets.value) == Targets(wanted, details).value
  {
    hide ResolveOption;
    var found: seq<nat> := [];
    assert wanted[..0] == [] && Rows(found) == {};
    for i := 0 to |wanted|
      invariant Targets(wanted[..i], details) == Some(Rows(found))
    {
      assert wanted[..i + 1][..i] == wanted[..i];
      var index := ResolveOption(wanted[i], details);
      if index.None? {
        SomeUnresolved(wanted, i + 1, details);
        return None;
      }
      assert Rows(found + [index.value]) == Rows(found) + {index.value};
      if index.value !in found {
        found := found + [index.value];
      } else {
        assert Rows(found) + {index.value} == Rows(found);
      }
    }
    assert wanted[..|wanted|] == wanted;
    targets := Some(found);
  }

  lemma {:induction false} SomeUnresolved(wanted: seq<string>, i: nat, details: QuestionDetails)
    requires i <= |wanted| && Targets(wanted[..i], details).None?
    ensures Targets(wanted, details).None?
    decreases |wanted| - i
  {
    hide ResolveOption;
    if i < |wanted| {
      assert wanted[..i + 1][..i] == wanted[..i];
      SomeUnresolved(wanted, i + 1, details);
    } else {
      assert wanted[..i] == wanted;
    }
  }

  lemma ToggleBytes(n: nat, want: set<nat>, have: set<nat>, cursor: nat, i: nat)
    requires i <= n
    ensures var bytes := BytesOf(ToggleFrom(n, want, have, cursor, i));
            if i == n then bytes == [0x0d]
            else if (i in want) != (i in have) then
              bytes == BytesOf(Arrows(cursor, i)) + [0x20] + BytesOf(ToggleFrom(n, want, have, i, i + 1))
            else bytes == BytesOf(ToggleFrom(n, want, have, cursor, i + 1))
  {
    hide Arrows;
    assert [Enter][1..] == [] && [Space][1..] == [];
    if i < n && (i in want) != (i in have) {
      BytesAppend(Arrows(cursor, i) + [Space], ToggleFrom(n, want, have, i, i + 1));
      BytesAppend(Arrows(cursor, i), [Space]);
    }
  }

  /** Marks row `i` right, if it is not, and says where the cursor is then. */
  method ToggleRow(bytes: seq<Byte>, n: nat, want: set<nat>, have: set<nat>, cursor: nat, i: nat)
    returns (more: seq<Byte>, at: nat)
    requires i < n
    ensures at == if (i in want) != (i in have) then i else cursor
    ensures bytes + BytesOf(ToggleFrom(n, want, have, cursor, i)) ==
              more + BytesOf(ToggleFrom(n, want, have, at, i + 1))
  {
    hide Arrows, ToggleFrom, BytesOf;
    more, at := bytes, cursor;
    ToggleBytes(n, want, have, cursor, i);
    if (i in want) != (i in have) {
      var arrows := Navigate(cursor, i);
      more, at := bytes + arrows + [0x20], i;
    }
  }

  method EncodeMultiChoice(wanted: seq<string>, details: QuestionDetails) returns (r: Result<seq<Byte>, RespondError>)
    ensures match MultiKeys(wanted, details)
            case Err(error) => r == Err(error)
            case Ok(keys) => r == Ok(BytesOf(keys))
  {
    hide Arrows, ResolveOption, ToggleFrom, BytesOf;
    if !details.MultipleChoice? || wanted == [] {
      return Err(InvalidResponse);
    }
    var targets := ResolveTargets(wanted, details);
    if targets.None? {
      return Err(InvalidResponse);
    }
    var n := |details.options|;
    var want, have := Rows(targets.value), Checked(details);
    var bytes: seq<Byte> := [];
    var cursor: nat := details.cursorIndex;
    for i := 0 to n
      invariant BytesOf(ToggleFrom(n, want, have, details.cursorIndex, 0)) ==
                  bytes + BytesOf(ToggleFrom(n, want, have, cursor, i))
    {
      bytes, cursor := ToggleRow(bytes, n, want, have, cursor, i);
    }
    ToggleBytes(n, want, have, cursor, n);
    r := Ok(bytes + [0x0d]);
  }

  // ---- text ---------------------------------------------------------------------------------------------

  const MAX_TEXT_INPUT_CHARS: nat := 4096

  /** Printable, not empty and not too long: text that can never encode keystrokes. */
  predicate ValidText(text: string) {
    text != "" && |text| <= MAX_TEXT_INPUT_CHARS && forall ch :: ch in text ==> !IsControl(ch)
  }

  function TypedKey(ch: char): Key {
    if ch == ' ' then Space else Typed(ch)
  }

  function TypedKeys(text: string): seq<Key> {
    seq(|text|, i requires 0 <= i < |text| => TypedKey(text[i]))
  }

  /** Clears the current text, types the new one and submits it. */
  function Retype(current: string, text: string): seq<Key> {
    Repeat(Backspace, |current|) + TypedKeys(text) + [Enter]
  }

  lemma {:induction false} TypedBytes(text: string)
    ensures BytesOf(TypedKeys(text)) == EncodeAll(text)
  {
    if text != "" {
      var init, ch := text[..|text| - 1], text[|text| - 1];
      assert TypedKeys(text) == TypedKeys(init) + [TypedKey(ch)];
      BytesAppend(TypedKeys(init), [TypedKey(ch)]);
      assert [TypedKey(ch)][1..] == [];
      TypedBytes(init);
    }
  }

  method EncodeRetype(current: string, text: string) returns (bytes: seq<Byte>)
    ensures bytes == BytesOf(Retype(current, text))
  {
    bytes := [];
    for i := 0 to |current|
      invariant bytes == BytesOf(Repeat(Backspace, i))
    {
      RepeatBytes(Backspace, i);
      bytes := bytes + [0x7f];
    }
    bytes := bytes + EncodeAll(text);
    TypedBytes(text);
    BytesAppend(Repeat(Backspace, |current|), TypedKeys(text));
    bytes := bytes + [0x0d];
    BytesAppend(Repeat(Backspace, |current|) + TypedKeys(text), [Enter]);
    assert [Enter][1..] == [];
  }

  // ---- questions ------------------------------------------------------------------------------------------

  /** Keys that fully answer, or keys that open the text entry for a write-in answer. */
  datatype QuestionInput = Submit(keys: seq<Key>) | OpenWriteIn(keys: seq<Key>, pendingText: string)

  function EncodeText(text: string, details: QuestionDetails): Result<QuestionInput, RespondError> {
    if !ValidText(text) then Err(InvalidResponse)
    else match details
      case FreeText(current) => Ok(Submit(Retype(current, text)))
      case SingleChoice(_, selected, Some(w)) => Ok(OpenWriteIn(Select(selected, w), text))
      case MultipleChoice(_, _, cursor, Some(w)) => Ok(OpenWriteIn(Select(cursor, w), text))
      case _ => Err(InvalidResponse)
  }

  function MultiInput(wanted: seq<string>, details: QuestionDetails): Result<QuestionInput, RespondError> {
    match MultiKeys(wanted, details)
    case Ok(keys) => Ok(Submit(keys))
    case Err(error) => Err(error)
  }

  function EncodeQuestion(response: RequestResponse, details: QuestionDetails): Result<QuestionInput, RespondError> {
    match response
    case DenyResponse => Ok(Submit([Escape_]))
    case ApproveResponse =>
      if details.SingleChoice? && Some(details.selectedIndex) == details.writeInIndex then Err(InvalidResponse)
      else Ok(Submit([Enter]))
    case SelectOption(option) =>
      (match details
       case SingleChoice(_, selected, _) =>
         var target := ResolveOption(option, details);
         if target.None? then Err(InvalidResponse) else Ok(Submit(Select(selected, target.value)))
       case MultipleChoice(_, _, _, _) => MultiInput([option], details)
       case FreeText(_) => Err(InvalidResponse))
    case SelectMultiple(options) => MultiInput(options, details)
    case TextInput(text) => EncodeText(text, details)
  }

  function MenuInput(response: RequestResponse, rows: seq<string>, selected: nat): Result<QuestionInput, RespondError> {
    match EncodeMenuChoice(response, rows, selected)
    case Ok(keys) => Ok(Submit(keys))
    case Err(error) => Err(error)
  }

  /** Answers whatever the interface is waiting for. */
  function EncodeForState(live: AgentState, response: RequestResponse): Result<QuestionInput, RespondError> {
    match live
    case UserQuestion(_, _, controls) => EncodeQuestion(response, controls)
    case WorkspaceTrust(_, _, menu, selected) => MenuInput(response, menu, selected)
    case CommandConfirmation(_, selected, menu) => MenuInput(response, menu, selected)
    case FileEditConfirmation(_, selected, menu) => MenuInput(response, menu, selected)
    case AwaitingReply(_) =>
      (match response
       case TextInput(text) => if ValidText(text) then Ok(Submit(TypedKeys(text) + [Enter])) else Err(InvalidResponse)
       case SelectOption(option) =>
         if ValidText(option) && !IsBlank(option) then Ok(Submit(TypedKeys(option) + [Enter])) else Err(InvalidResponse)
       case _ => Err(InvalidResponse))
    case _ => Err(NotBlocked)
  }
}
