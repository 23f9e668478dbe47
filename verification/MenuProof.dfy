/** What the encoded keys do: an interpreter of the terminal interface, and the proof that the compiled
    answers are carried out exactly. */
module MenuProof {
  import opened Types
  import opened Text
  import opened Screens
  import opened Utf8
  import opened Questions
  import opened InputEncoder

  /** A menu: the cursor, the checked rows and the rows toggled so far; or what was submitted; or the text
      entry that its write-in row opens; or a key the menu does not understand or that would leave it. */
  datatype Menu =
    | Open(cursor: nat, checked: set<nat>, toggled: seq<nat>)
    | Submitted(cursor: nat, checked: set<nat>, toggled: seq<nat>)
    | TextEntry(cursor: nat, checked: set<nat>, toggled: seq<nat>)
    | Left

  /** Enter opens the text entry on the write-in row and submits anywhere else. */
  function Confirmed(m: Menu, writeIn: Option<nat>): Menu
    requires m.Open?
  {
    if Some(m.cursor) == writeIn then TextEntry(m.cursor, m.checked, m.toggled)
    else Submitted(m.cursor, m.checked, m.toggled)
  }

  /** A key pressed in a menu of `n` rows, of which `writeIn` is the write-in row, if it has one. */
  function Press(n: nat, writeIn: Option<nat>, m: Menu, key: Key): Menu {
    if !m.Open? then Left
    else match key
      case Up => if m.cursor > 0 then Open(m.cursor - 1, m.checked, m.toggled) else Left
      case Down => if m.cursor + 1 < n then Open(m.cursor + 1, m.checked, m.toggled) else Left
      case Space =>
        var checked := if m.cursor in m.checked then m.checked - {m.cursor} else m.checked + {m.cursor};
        Open(m.cursor, checked, m.toggled + [m.cursor])
      case Enter => Confirmed(m, writeIn)
      case _ => Left
  }

  function PressAll(n: nat, writeIn: Option<nat>, m: Menu, keys: seq<Key>): Menu
    decreases |keys|
  {
    if keys == [] then m else PressAll(n, writeIn, Press(n, writeIn, m, keys[0]), keys[1..])
  }

  lemma {:induction false} PressAppend(n: nat, writeIn: Option<nat>, m: Menu, a: seq<Key>, b: seq<Key>)
    ensures PressAll(n, writeIn, m, a + b) == PressAll(n, writeIn, PressAll(n, writeIn, m, a), b)
    decreases |a|
  {
    if a == [] {
      assert a + b == b;
    } else {
      assert (a + b)[1..] == a[1..] + b;
      PressAppend(n, writeIn, Press(n, writeIn, m, a[0]), a[1..], b);
    }
  }

  /** Arrow keys lead exactly to the wanted row without leaving the menu. */
  lemma {:induction false} ArrowsLead(n: nat, writeIn: Option<nat>, m: Menu, to_: nat)
    requires m.Open? && m.cursor < n && to_ < n
    ensures PressAll(n, writeIn, m, Arrows(m.cursor, to_)) == Open(to_, m.checked, m.toggled)
    decreases if to_ > m.cursor then to_ - m.cursor else m.cursor - to_
  {
    var keys := Arrows(m.cursor, to_);
    if to_ != m.cursor {
      var next := if to_ > m.cursor then m.cursor + 1 else m.cursor - 1;
      assert keys[1..] == Arrows(next, to_) by {
        assert |keys[1..]| == |Arrows(next, to_)|;
      }
      ArrowsLead(n, writeIn, Open(next, m.checked, m.toggled), to_);
    } else {
      assert keys == [];
    }
  }

  lemma SelectLeads(n: nat, writeIn: Option<nat>, m: Menu, to_: nat)
    requires m.Open? && m.cursor < n && to_ < n
    ensures PressAll(n, writeIn, m, Select(m.cursor, to_)) == Confirmed(Open(to_, m.checked, m.toggled), writeIn)
  {
    ArrowsLead(n, writeIn, m, to_);
    PressAppend(n, writeIn, m, Arrows(m.cursor, to_), [Enter]);
    assert [Enter][1..] == [];
  }

  // ---- multiple choice ----------------------------------------------------------------------------

  ghost predicate Within(rows: set<nat>, n: nat) {
    forall x :: x in rows ==> x < n
  }

  ghost predicate Toggles(keys: seq<nat>, from: nat, want: set<nat>, have: set<nat>, n: nat) {
    && (forall i, j :: 0 <= i < j < |keys| ==> keys[i] < keys[j])
    && (forall x :: x in keys <==> from <= x < n && (x in want) != (x in have))
  }

  lemma TogglesStep(rest: seq<nat>, i: nat, want: set<nat>, have: set<nat>, n: nat)
    requires i < n && Toggles(rest, i + 1, want, have, n)
    ensures if (i in want) != (i in have) then Toggles([i] + rest, i, want, have, n)
            else Toggles(rest, i, want, have, n)
  {
    if (i in want) != (i in have) {
      var keys := [i] + rest;
      forall a, b | 0 <= a < b < |keys| ensures keys[a] < keys[b] {
        assert keys[b] == rest[b - 1] && rest[b - 1] in rest;
      }
      forall x ensures x in keys <==> i <= x < n && (x in want) != (x in have) {
        assert x in keys <==> x == i || x in rest;
      }
    }
  }

  /** Where the toggling ends: on the last row toggled, or where the cursor was. */
  function FinalRow(cursor: nat, toggled: seq<nat>): nat {
    if toggled == [] then cursor else toggled[|toggled| - 1]
  }

  lemma {:induction false} ToggleRun(n: nat, writeIn: Option<nat>, want: set<nat>, have: set<nat>, m: Menu, i: nat)
    returns (toggled: seq<nat>)
    requires m.Open? && m.cursor < n && i <= n
    requires forall x :: x in m.checked <==> if x < i then x in want else x in have
    requires Within(want, n) && Within(have, n)
    ensures Toggles(toggled, i, want, have, n)
    ensures PressAll(n, writeIn, m, ToggleFrom(n, want, have, m.cursor, i)) ==
              Confirmed(Open(FinalRow(m.cursor, toggled), want, m.toggled + toggled), writeIn)
    decreases n - i
  {
    hide Arrows;
    if i == n {
      toggled := [];
      assert [Enter][1..] == [];
      assert m.checked == want;
      assert m.toggled + toggled == m.toggled;
    } else if (i in want) != (i in have) {
      ArrowsLead(n, writeIn, m, i);
      var there := Open(i, m.checked, m.toggled);
      var flipped := Press(n, writeIn, there, Space);
      var rest := ToggleRun(n, writeIn, want, have, flipped, i + 1);
      TogglesStep(rest, i, want, have, n);
      toggled := [i] + rest;
      assert m.toggled + toggled == (m.toggled + [i]) + rest;
      var tail := ToggleFrom(n, want, have, i, i + 1);
      PressAppend(n, writeIn, m, Arrows(m.cursor, i), [Space] + tail);
      assert Arrows(m.cursor, i) + ([Space] + tail) == Arrows(m.cursor, i) + [Space] + tail;
      assert ([Space] + tail)[1..] == tail;
    } else {
      toggled := ToggleRun(n, writeIn, want, have, m, i + 1);
      TogglesStep(toggled, i, want, have, n);
    }
  }

  ghost predicate LiveMenu(details: QuestionDetails) {
    && details.MultipleChoice? && details.cursorIndex < |details.options|
    && forall x :: x in details.checkedIndices ==> x < |details.options|
  }

  /** The rows that an answer asks for: for each label the first row that carries it, never the write-in
      row. */
  ghost predicate AsksFor(rows: seq<string>, writeIn: Option<nat>, wanted: seq<string>, x: nat) {
    && x < |rows|
    && exists name :: name in wanted && Answers(rows, name, writeIn, x) &&
         forall j :: 0 <= j < x ==> !Answers(rows, name, writeIn, j)
  }

  lemma {:induction false} TargetsAreAskedFor(wanted: seq<string>, details: QuestionDetails)
    requires Targets(wanted, details).Some?
    ensures forall x :: x in Targets(wanted, details).value <==> AsksFor(details.MenuRows(), details.WriteInRow(), wanted, x)
  {
    hide Answers, FindRow;
    var rows, writeIn := details.MenuRows(), details.WriteInRow();
    if wanted != [] {
      var init, last := wanted[..|wanted| - 1], wanted[|wanted| - 1];
      TargetsAreAskedFor(init, details);
      assert wanted == init + [last];
      FindRowFirst(rows, last, writeIn, 0);
      var found := FindRow(rows, last, writeIn, 0).value;
      forall x: nat ensures x in Targets(wanted, details).value <==> AsksFor(rows, writeIn, wanted, x) {
        if AsksFor(rows, writeIn, wanted, x) {
          var name :| name in wanted && Answers(rows, name, writeIn, x) &&
            forall j :: 0 <= j < x ==> !Answers(rows, name, writeIn, j);
          if name == last {
            assert x == found;
          } else {
            assert name in init && AsksFor(rows, writeIn, init, x);
          }
        }
        if x == found {
          assert last in wanted && Answers(rows, last, writeIn, x);
          assert AsksFor(rows, writeIn, wanted, x);
        } else if x in Targets(init, details).value {
          assert AsksFor(rows, writeIn, init, x);
          var name :| name in init && Answers(rows, name, writeIn, x) &&
            forall j :: 0 <= j < x ==> !Answers(rows, name, writeIn, j);
          assert name in wanted;
        }
      }
    }
  }

  lemma ToggleUnambiguous(n: nat, want: set<nat>, have: set<nat>, cursor: nat, i: nat)
    requires i <= n
    ensures forall key :: key in ToggleFrom(n, want, have, cursor, i) ==> Unambiguous(key)
    decreases n - i
  {
    if i < n {
      ToggleUnambiguous(n, want, have, i, i + 1);
      ToggleUnambiguous(n, want, have, cursor, i + 1);
    }
  }

  /** What the menu makes of an answer to it, from its live cursor and check marks. */
  ghost function Answered(wanted: seq<string>, details: QuestionDetails): Menu
    requires details.MultipleChoice? && MultiKeys(wanted, details).Ok?
  {
    PressAll(|details.options|, details.writeInIndex, Open(details.cursorIndex, Checked(details), []),
             KeysIn(BytesOf(MultiKeys(wanted, details).value)))
  }

  /** Multiple choice is compiled correctly. The bytes, read back by the menu from its live cursor and
      check marks, check exactly the rows asked for; they toggle exactly the rows whose mark was wrong,
      each once; the cursor never leaves the menu and ends on the row toggled last, or stays. There Enter
      submits, unless it is the write-in row. */
  lemma MultiChoiceCorrect(wanted: seq<string>, details: QuestionDetails) returns (toggled: seq<nat>)
    requires LiveMenu(details) && MultiKeys(wanted, details).Ok?
    ensures var done, final := Answered(wanted, details), FinalRow(details.cursorIndex, toggled);
            && (done.Submitted? || done.TextEntry?)
            && done.cursor == final && done.toggled == toggled
            && (done.Submitted? <==> Some(final) != details.writeInIndex)
            && (forall x :: x in done.checked <==> AsksFor(details.options, details.writeInIndex, wanted, x))
            && Toggles(toggled, 0, done.checked, Checked(details), |details.options|)
  {
    hide ToggleFrom, Targets, Answers;
    var n, have, want := |details.options|, Checked(details), Targets(wanted, details).value;
    TargetsAreAskedFor(wanted, details);
    forall x | x in want ensures x < n {
      assert AsksFor(details.MenuRows(), details.WriteInRow(), wanted, x);
    }
    toggled := ToggleRun(n, details.writeInIndex, want, have, Open(details.cursorIndex, have, []), 0);
    assert [] + toggled == toggled;
    ToggleUnambiguous(n, want, have, details.cursorIndex, 0);
    KeysRead(MultiKeys(wanted, details).value);
  }

  /** The mark of a row is not the one asked for. */
  ghost predicate Wrong(wanted: seq<string>, details: QuestionDetails, x: nat)
    requires details.MultipleChoice?
  {
    x < |details.options| && AsksFor(details.options, details.writeInIndex, wanted, x) != (x in Checked(details))
  }

  /** The write-in row is the last one with a wrong mark, or the cursor is on it and no mark is wrong. */
  ghost predicate EndsOnWriteIn(wanted: seq<string>, details: QuestionDetails)
    requires details.MultipleChoice?
  {
    && details.writeInIndex.Some?
    && var w := details.writeInIndex.value;
       || (Wrong(wanted, details, w) && forall x: nat :: x > w ==> !Wrong(wanted, details, x))
       || (details.cursorIndex == w && forall x: nat :: !Wrong(wanted, details, x))
  }

  /** An answer to a multiple choice is submitted exactly when it does not end on the write-in row: a menu
      whose write-in row is not checked and not under the cursor always submits it. */
  lemma MultiChoiceSubmits(wanted: seq<string>, details: QuestionDetails)
    requires LiveMenu(details) && MultiKeys(wanted, details).Ok?
    ensures Answered(wanted, details).Submitted? <==> !EndsOnWriteIn(wanted, details)
    ensures Answered(wanted, details).TextEntry? <==> EndsOnWriteIn(wanted, details)
  {
    hide Answered, MultiKeys, AsksFor, Checked;
    var toggled := MultiChoiceCorrect(wanted, details);
    assert forall x: nat :: x in toggled <==> Wrong(wanted, details, x);
    if toggled != [] {
      LastIsLargest(toggled);
      assert Wrong(wanted, details, toggled[|toggled| - 1]);
    }
  }

  lemma LastIsLargest(keys: seq<nat>)
    requires keys != [] && forall i, j :: 0 <= i < j < |keys| ==> keys[i] < keys[j]
    ensures forall x :: x in keys ==> x <= keys[|keys| - 1]
  {
  }

  /** One key, two readings: in this menu the answer "a", already checked, and a write-in compile to the
      same Enter, on the write-in row; so the answer opens the text entry instead of being submitted. */
  lemma AnswerOpensTextEntry()
    ensures var details := MultipleChoice(["a", "w"], [0], 1, Some(1));
            && EncodeQuestion(SelectMultiple(["a"]), details) == Ok(Submit([Enter]))
            && EncodeQuestion(TextInput("x"), details) == Ok(OpenWriteIn([Enter], "x"))
            && PressAll(2, Some(1), Open(1, {0}, []), KeysIn(BytesOf([Enter]))) == TextEntry(1, {0}, [])
  {
    var details := MultipleChoice(["a", "w"], [0], 1, Some(1));
    assert ["a"][..0] == [];
    assert ResolveOption("a", details) == Some(0);
    assert Targets([], details) == Some({});
    var none: set<nat> := {};
    assert none + {0} == {0};
    assert Targets(["a"], details) == Some({0});
    assert ToggleFrom(2, {0}, {0}, 1, 0) == ToggleFrom(2, {0}, {0}, 1, 1) == ToggleFrom(2, {0}, {0}, 1, 2);
    assert Checked(details) == {0};
    assert MultiKeys(["a"], details) == Ok([Enter]);
    assert Arrows(1, 1) == [] && Select(1, 1) == [Enter];
    KeysRead([Enter]);
    assert [Enter][1..] == [];
  }

  /** Approving a question presses Enter where it stands: a text is submitted as it is; of a choice the
      marks are submitted, or the text entry opens if the cursor is on the write-in row. Only a single
      choice refuses the latter. */
  lemma ApproveCorrect(details: QuestionDetails)
    ensures EncodeQuestion(ApproveResponse, details).Err? <==>
              details.SingleChoice? && Some(details.selectedIndex) == details.writeInIndex
    ensures EncodeQuestion(ApproveResponse, details).Ok? ==>
              && EncodeQuestion(ApproveResponse, details) == Ok(Submit([Enter]))
              && match details
                 case FreeText(current) => TypeAll(Editing(current), KeysIn(BytesOf([Enter]))) == Sent(current)
                 case SingleChoice(options, cursor, w) =>
                   PressAll(|options|, w, Open(cursor, {}, []), KeysIn(BytesOf([Enter]))) == Submitted(cursor, {}, [])
                 case MultipleChoice(options, _, cursor, w) =>
                   PressAll(|options|, w, Open(cursor, Checked(details), []), KeysIn(BytesOf([Enter]))) ==
                     if Some(cursor) == w then TextEntry(cursor, Checked(details), [])
                     else Submitted(cursor, Checked(details), [])
  {
    KeysRead([Enter]);
    assert [Enter][1..] == [];
  }

  ghost predicate NamesNoRow(rows: seq<string>, name: string, writeIn: Option<nat>) {
    forall i :: 0 <= i < |rows| ==> !Answers(rows, name, writeIn, i)
  }

  /** It is refused exactly when nothing is asked for or a label names no row other than the write-in. */
  lemma {:induction false} MultiChoiceRefusal(wanted: seq<string>, details: QuestionDetails)
    requires details.MultipleChoice?
    ensures Targets(wanted, details).None? <==>
              exists name :: name in wanted && NamesNoRow(details.options, name, details.writeInIndex)
    ensures MultiKeys(wanted, details).Err? <==> wanted == [] || Targets(wanted, details).None?
  {
    hide Answers, FindRow;
    if wanted != [] {
      var init, last := wanted[..|wanted| - 1], wanted[|wanted| - 1];
      MultiChoiceRefusal(init, details);
      assert Targets(wanted, details).None? <==> Targets(init, details).None? || ResolveOption(last, details).None?;
      FindRowFirst(details.options, last, details.writeInIndex, 0);
      assert wanted == init + [last];
      assert forall name :: name in wanted <==> name in init || name == last;
      assert ResolveOption(last, details).None? <==> NamesNoRow(details.options, last, details.writeInIndex);
    }
  }

  // ---- single choice and menus ----------------------------------------------------------------------

  lemma SelectUnambiguous(from: nat, to_: nat)
    ensures forall key :: key in Select(from, to_) ==> Unambiguous(key)
  {
  }

  /** Choosing an option submits the first row with that label, never the write-in row, from wherever the
      cursor is; and it is refused when there is none. */
  lemma SingleChoiceCorrect(option: string, options: seq<string>, selected: nat, writeIn: Option<nat>)
    requires selected < |options|
    ensures var r := EncodeQuestion(SelectOption(option), SingleChoice(options, selected, writeIn));
            if r.Err? then
              r.error == InvalidResponse && forall i :: 0 <= i < |options| ==> !Answers(options, option, writeIn, i)
            else
              && r.value.Submit?
              && var done := PressAll(|options|, writeIn, Open(selected, {}, []), KeysIn(BytesOf(r.value.keys)));
                 && done.Submitted? && done.cursor < |options| && done.toggled == []
                 && Answers(options, option, writeIn, done.cursor) && Some(done.cursor) != writeIn
                 && forall j :: 0 <= j < done.cursor ==> !Answers(options, option, writeIn, j)
  {
    hide Trim, FindRow;
    FindRowFirst(options, option, writeIn, 0);
    var target := FindRow(options, option, writeIn, 0);
    if target.Some? {
      SelectUnambiguous(selected, target.value);
      KeysRead(Select(selected, target.value));
      SelectLeads(|options|, writeIn, Open(selected, {}, []), target.value);
    }
  }

  /** A row that answers a menu: one named, or an affirmative or negative one by its label. */
  predicate RowAnswers(response: RequestResponse, rows: seq<string>, i: nat)
    requires i < |rows|
  {
    match response
    case SelectOption(option) => Answers(rows, option, None, i)
    case SelectMultiple(options) => |options| == 1 && Answers(rows, options[0], None, i)
    case ApproveResponse => StartsWith(TrimStart(rows[i]), "Yes")
    case DenyResponse => StartsWith(TrimStart(rows[i]), "No")
    case TextInput(_) => false
  }

  lemma MenuTargetFirst(response: RequestResponse, rows: seq<string>)
    ensures match MenuTarget(response, rows)
            case None => forall i :: 0 <= i < |rows| ==> !RowAnswers(response, rows, i)
            case Some(target) =>
              RowAnswers(response, rows, target) && forall j :: 0 <= j < target ==> !RowAnswers(response, rows, j)
  {
    hide TrimStart, StartsWith, FindPrefix, FindRow, Answers;
    match response
    case SelectOption(option) => FindRowFirst(rows, option, None, 0);
    case SelectMultiple(options) => if |options| == 1 { FindRowFirst(rows, options[0], None, 0); }
    case ApproveResponse => FindPrefixFirst(rows, "Yes", 0);
    case DenyResponse => FindPrefixFirst(rows, "No", 0);
    case TextInput(_) =>
  }

  /** Whatever answers a menu submits its first row that answers it: one with the label named, or the first
      affirmative or negative one, by label and not by position. Without such a row it is refused, and so is
      a stale cursor. */
  lemma MenuChoiceCorrect(response: RequestResponse, rows: seq<string>, selected: nat)
    ensures match EncodeMenuChoice(response, rows, selected)
            case Err(error) =>
              error == (if selected >= |rows| then StateMismatch else InvalidResponse) &&
              (selected < |rows| ==> forall i :: 0 <= i < |rows| ==> !RowAnswers(response, rows, i))
            case Ok(keys) =>
              && selected < |rows|
              && var done := PressAll(|rows|, None, Open(selected, {}, []), KeysIn(BytesOf(keys)));
                 && done.Submitted? && done.cursor < |rows| && done.toggled == []
                 && RowAnswers(response, rows, done.cursor)
                 && forall j :: 0 <= j < done.cursor ==> !RowAnswers(response, rows, j)
  {
    hide RowAnswers, MenuTarget;
    MenuTargetFirst(response, rows);
    var target := MenuTarget(response, rows);
    if selected < |rows| && target.Some? {
      SelectUnambiguous(selected, target.value);
      KeysRead(Select(selected, target.value));
      SelectLeads(|rows|, None, Open(selected, {}, []), target.value);
    }
  }

  // ---- text entry -----------------------------------------------------------------------------------

  /** A text entry: the text so far, or the text that was submitted. */
  datatype Entry = Editing(text: string) | Sent(text: string) | Abandoned

  function Type(e: Entry, key: Key): Entry {
    if !e.Editing? then Abandoned
    else match key
      case Backspace => Editing(if e.text == "" then "" else e.text[..|e.text| - 1])
      case Space => Editing(e.text + " ")
      case Typed(ch) => Editing(e.text + [ch])
      case Enter => Sent(e.text)
      case _ => Abandoned
  }

  function TypeAll(e: Entry, keys: seq<Key>): Entry
    decreases |keys|
  {
    if keys == [] then e else TypeAll(Type(e, keys[0]), keys[1..])
  }

  lemma {:induction false} TypeAppend(e: Entry, a: seq<Key>, b: seq<Key>)
    ensures TypeAll(e, a + b) == TypeAll(TypeAll(e, a), b)
    decreases |a|
  {
    if a == [] {
      assert a + b == b;
    } else {
      assert (a + b)[1..] == a[1..] + b;
      TypeAppend(Type(e, a[0]), a[1..], b);
    }
  }

  lemma {:induction false} BackspacesClear(text: string)
    ensures TypeAll(Editing(text), Repeat(Backspace, |text|)) == Editing("")
  {
    if text != "" {
      assert Repeat(Backspace, |text|)[1..] == Repeat(Backspace, |text| - 1);
      BackspacesClear(text[..|text| - 1]);
    }
  }

  lemma {:induction false} TypingTypes(before: string, text: string)
    ensures TypeAll(Editing(before), TypedKeys(text)) == Editing(before + text)
    decreases |text|
  {
    if text == "" {
      assert before + text == before;
    } else {
      assert TypedKeys(text)[1..] == TypedKeys(text[1..]);
      TypingTypes(before + [text[0]], text[1..]);
      assert (before + [text[0]]) + text[1..] == before + text;
    }
  }

  /** Free text replaces the current text with exactly the given text: the bytes contain nothing that the
      entry could take for another key. */
  lemma FreeTextCorrect(current: string, text: string)
    requires ValidText(text)
    ensures EncodeQuestion(TextInput(text), FreeText(current)) == Ok(Submit(Retype(current, text)))
    ensures TypeAll(Editing(current), KeysIn(BytesOf(Retype(current, text)))) == Sent(text)
  {
    var clear, typed := Repeat(Backspace, |current|), TypedKeys(text);
    forall key | key in Retype(current, text) ensures Unambiguous(key) {
      if key in typed {
        var i :| 0 <= i < |typed| && typed[i] == key;
        assert text[i] in text;
      }
    }
    KeysRead(Retype(current, text));
    TypeAppend(Editing(current), clear + typed, [Enter]);
    TypeAppend(Editing(current), clear, typed);
    BackspacesClear(current);
    TypingTypes("", text);
    assert "" + text == text;
    assert [Enter][1..] == [];
  }

  /** A reply, given as text or as a chosen option, types exactly its text into the chat input and submits
      it; anything else is refused, and so is text that is not printable or an option that is blank. */
  lemma ReplyCorrect(message: string, response: RequestResponse)
    ensures var r := EncodeForState(AwaitingReply(message), response);
            && (r.Ok? <==> (response.TextInput? && ValidText(response.text)) ||
                           (response.SelectOption? && ValidText(response.option) && !IsBlank(response.option)))
            && (r.Err? ==> r.error == InvalidResponse)
            && (r.Ok? ==>
                  && r.value.Submit?
                  && TypeAll(Editing(""), KeysIn(BytesOf(r.value.keys))) ==
                       Sent(if response.TextInput? then response.text else response.option))
  {
    hide ValidText, KeysIn, BytesOf, TypeAll;
    if response.TextInput? && ValidText(response.text) {
      FreeTextCorrect("", response.text);
      assert Retype("", response.text) == TypedKeys(response.text) + [Enter];
    } else if response.SelectOption? && ValidText(response.option) {
      FreeTextCorrect("", response.option);
      assert Retype("", response.option) == TypedKeys(response.option) + [Enter];
    }
  }

  /** A write-in answer is never typed into the menu: only the keys that open the text entry are sent, and
      the text is held back. */
  lemma WriteInHeldBack(text: string, details: QuestionDetails)
    requires ValidText(text) && !details.FreeText?
    ensures var r := EncodeQuestion(TextInput(text), details);
            if r.Err? then r.error == InvalidResponse && details.writeInIndex == None
            else
              && r.value.OpenWriteIn? && r.value.pendingText == text && details.writeInIndex.Some?
              && var cursor := if details.SingleChoice? then details.selectedIndex else details.cursorIndex;
                 var n, w := |details.options|, details.writeInIndex.value;
                 cursor < n && w < n ==>
                   PressAll(n, Some(w), Open(cursor, {}, []), KeysIn(BytesOf(r.value.keys))) == TextEntry(w, {}, [])
  {
    if details.writeInIndex.Some? {
      var cursor := if details.SingleChoice? then details.selectedIndex else details.cursorIndex;
      var n, w := |details.options|, details.writeInIndex.value;
      SelectUnambiguous(cursor, w);
      KeysRead(Select(cursor, w));
      if cursor < n && w < n {
        SelectLeads(n, Some(w), Open(cursor, {}, []), w);
      }
    }
  }
}
