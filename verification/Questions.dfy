/** What the agent's terminal interface can be waiting for. */
module Questions {
  import opened Types

  datatype QuestionDetails =
    | SingleChoice(options: seq<string>, selectedIndex: nat, writeInIndex: Option<nat>)
    | MultipleChoice(options: seq<string>, checkedIndices: seq<nat>, cursorIndex: nat, writeInIndex: Option<nat>)
    | FreeText(currentText: string)
  {
    /** Menu rows in screen order. */
    function MenuRows(): seq<string> {
      if FreeText? then [] else options
    }

    function WriteInRow(): Option<nat> {
      if FreeText? then None else writeInIndex
    }

    /** The same controls, whatever the live cursor, check marks and text. */
    predicate SameControls(other: QuestionDetails) {
      match (this, other)
      case (SingleChoice(a, _, wa), SingleChoice(b, _, wb)) => a == b && wa == wb
      case (MultipleChoice(a, _, _, wa), MultipleChoice(b, _, _, wb)) => a == b && wa == wb
      case (FreeText(_), FreeText(_)) => true
      case _ => false
    }
  }

  /** Position of a question in a form of several. */
  datatype QuestionForm = QuestionForm(index: nat, total: nat)

  datatype AgentState =
    | Initializing
    | Busy(details: string)
    | CommandConfirmation(command: string, selectedOption: nat, menu: seq<string>)
    | FileEditConfirmation(filePath: string, selectedOption: nat, menu: seq<string>)
    | UserQuestion(question: string, form: Option<QuestionForm>, controls: QuestionDetails)
    | WorkspaceTrust(directory: string, question: string, menu: seq<string>, selectedOption: nat)
    | IdlePrompt
    | AwaitingReply(message: string)
    | Done(message: string)
    | FatalError(error: string)
  {
    predicate IsBlocking() {
      CommandConfirmation? || FileEditConfirmation? || UserQuestion? || WorkspaceTrust? || AwaitingReply?
    }

    /** The same human request, ignoring live cursor, check marks and typed text. */
    predicate SameRequest(other: AgentState) {
      match (this, other)
      case (CommandConfirmation(a, _, ma), CommandConfirmation(b, _, mb)) => a == b && ma == mb
      case (FileEditConfirmation(a, _, ma), FileEditConfirmation(b, _, mb)) => a == b && ma == mb
      case (UserQuestion(qa, fa, ca), UserQuestion(qb, fb, cb)) => qa == qb && fa == fb && ca.SameControls(cb)
      case (WorkspaceTrust(a, qa, ma, _), WorkspaceTrust(b, qb, mb, _)) => a == b && qa == qb && ma == mb
      case (AwaitingReply(a), AwaitingReply(b)) => a == b
      case _ => false
    }
  }

  /** Binding a response to a request is an equivalence on blocking states, and holds of no others. */
  lemma SameRequestEquivalence(a: AgentState, b: AgentState, c: AgentState)
    ensures a.SameRequest(a) <==> a.IsBlocking()
    ensures a.SameRequest(b) ==> b.SameRequest(a) && a.IsBlocking() && b.IsBlocking()
    ensures a.SameRequest(b) && b.SameRequest(c) ==> a.SameRequest(c)
  {
  }

  /** What identifies a request: the state without its live cursor, check marks and typed text. */
  function Frozen(s: AgentState): AgentState {
    match s
    case CommandConfirmation(command, _, menu) => CommandConfirmation(command, 0, menu)
    case FileEditConfirmation(filePath, _, menu) => FileEditConfirmation(filePath, 0, menu)
    case UserQuestion(question, form, SingleChoice(options, _, writeIn)) =>
      UserQuestion(question, form, SingleChoice(options, 0, writeIn))
    case UserQuestion(question, form, MultipleChoice(options, _, _, writeIn)) =>
      UserQuestion(question, form, MultipleChoice(options, [], 0, writeIn))
    case UserQuestion(question, form, FreeText(_)) => UserQuestion(question, form, FreeText(""))
    case WorkspaceTrust(directory, question, menu, _) => WorkspaceTrust(directory, question, menu, 0)
    case _ => s
  }

  /** Two states are the same request exactly when a human is asked and they differ at most in live parts. */
  lemma SameRequestExactly(a: AgentState, b: AgentState)
    ensures a.SameRequest(b) <==>
              && Frozen(a) == Frozen(b)
              && (a.CommandConfirmation? || a.FileEditConfirmation? || a.UserQuestion? || a.WorkspaceTrust? || a.AwaitingReply?)
  {
  }
}
