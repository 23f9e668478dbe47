/** From a human's answer to what is typed: which response the adapter is sent, what is recorded of it, and
    which row of a menu it ends on. */
module Responses {
  import opened Types
  import opened Text
  import opened PriorityQueues
  import opened LogStores
  import opened CoreMachine
  import opened Coherence
  import opened Delivery
  import opened Questions
  import InputEncoder
  import MenuProof

  /** What an answer says: a denial is a denial whatever else came with it; otherwise text goes before options,
      one option is named alone, several as a list, and with neither it is a plain approval. */
  ghost predicate Says(response: RequestResponse, decision: Decision, selected: Option<seq<string>>, text: Option<string>) {
    && (decision == Deny ==> response == DenyResponse)
    && (decision == Approve && text.Some? ==> response == TextInput(text.value))
    && (decision == Approve && text.None? && selected.Some? && |selected.value| == 1 ==>
          response == SelectOption(selected.value[0]))
    && (decision == Approve && text.None? && selected.Some? && |selected.value| >= 2 ==>
          response == SelectMultiple(selected.value))
    && (decision == Approve && text.None? && (selected.None? || selected.value == []) ==> response == ApproveResponse)
  }

  /** The line that is recorded of it. */
  ghost predicate Recorded(line: string, decision: Decision, selected: Option<seq<string>>, text: Option<string>) {
    && (decision == Deny ==> line == "> User denied")
    && (decision == Approve && text.Some? ==> line == "> User input: " + text.value)
    && (decision == Approve && text.None? && selected.Some? && selected.value != [] ==>
          line == "> User selected: " + Join(selected.value))
    && (decision == Approve && text.None? && (selected.None? || selected.value == []) ==> line == "> User approved")
  }

  /** Options are joined by a comma and a space. */
  lemma {:induction false} JoinSeparates(options: seq<string>, last: string)
    ensures Join([last]) == last
    ensures options != [] ==> Join(options + [last]) == Join(options) + ", " + last
  {
    if |options| > 1 {
      assert (options + [last])[1..] == options[1..] + [last];
      JoinSeparates(options[1..], last);
    } else if |options| == 1 {
      assert (options + [last])[1..] == [last];
    }
  }

  ghost predicate HasRoom(ch: Channel) {
    !ch.closed && |ch.queue| < ch.capacity
  }

  /** The command that answering an open request adds to a channel with room: it names the stored event's task
      and number, and carries what the human said. */
  lemma AnswerSent(core: Core, client: ClientId, requestId: Option<string>, id: EventId, decision: Decision,
                   selected: Option<seq<string>>, text: Option<string>, now: Time, freshId: EventId)
    requires CoreOk(core) && id in core.entries && core.entries[id].resolution == Some(Unresolved)
    requires core.responder.Some? && HasRoom(core.responder.value)
    ensures var ch := core.responder.value;
            var q := Step(core, FromClient(client, requestId, Respond(id, decision, selected, text)), now, freshId).core;
            && q.responder.Some? && |q.responder.value.queue| == |ch.queue| + 1 && ch.queue <= q.responder.value.queue
            && q.responder.value == ch.(queue := q.responder.value.queue)
            && var command := q.responder.value.queue[|ch.queue|];
               && command.RespondCommand? && command.id == id && command.decision == decision && command.now == now
               && id in core.events && command.requestSeq == Some(core.events[id].agentSeq)
               && command.taskId == (match core.events[id].taskId case Some(t) => t case None => "antigravity-session")
               && Says(command.response, decision, selected, text)
  {
    hide RespondStep, CoreOk;
    KeysAgree(core);
    RespondResolutions(Pipe(core, []), client, requestId, id, decision, FromRespondRequest(decision, selected, text), now);
  }

  /** What answering an open request adds to its pinned lines, whatever the channel. */
  lemma AnswerRecorded(core: Core, client: ClientId, requestId: Option<string>, id: EventId, decision: Decision,
                       selected: Option<seq<string>>, text: Option<string>, now: Time, freshId: EventId)
    requires CoreOk(core) && id in core.entries && core.entries[id].resolution == Some(Unresolved)
    requires id in core.logs.pinned
    ensures var q := Step(core, FromClient(client, requestId, Respond(id, decision, selected, text)), now, freshId).core;
            && id in q.logs.pinned
            && q.logs == core.logs.(pinned := core.logs.pinned[id := q.logs.pinned[id]])
            && var before, after := core.logs.pinned[id].lines, q.logs.pinned[id].lines;
               && |after| == |before| + 1 && before <= after
               && after[|before|].ts == now && Recorded(after[|before|].text, decision, selected, text)
  {
    hide RespondStep, CoreOk, Join, FromRespondRequest, ResponseText;
    var response := FromRespondRequest(decision, selected, text);
    SaidLine(decision, selected, text);
    AnswerLogs(Pipe(core, []), client, requestId, id, decision, response, now);
  }

  lemma SaidLine(decision: Decision, selected: Option<seq<string>>, text: Option<string>)
    ensures Recorded(ResponseText(FromRespondRequest(decision, selected, text)), decision, selected, text)
  {
    if selected.Some? && |selected.value| == 1 {
      JoinSeparates([], selected.value[0]);
      assert selected.value == [selected.value[0]];
    }
  }

  lemma AnswerLogs(p: Pipe, client: ClientId, requestId: Option<string>, id: EventId, decision: Decision,
                   response: RequestResponse, now: Time)
    requires id in p.core.entries && p.core.entries[id].resolution == Some(Unresolved)
    ensures RespondStep(p, client, requestId, id, decision, response, now).core.logs ==
              PinnedAppended(p.core.logs, id, ResponseText(response), now)
  {
    hide PinnedAppended, ResponseText, CommandFor, Accepts, Settle, AcceptResponse;
    AcceptLogs(p, client, id, decision, response, now);
    var accepted := AcceptResponse(p, client, id, decision, response, now);
    SettleLogs(accepted, id, ResolutionOf(decision), now);
    SettleLogs(accepted, id, Unresolved, now);
  }

  lemma AcceptLogs(p: Pipe, client: ClientId, id: EventId, decision: Decision, response: RequestResponse, now: Time)
    requires id in p.core.entries
    ensures AcceptResponse(p, client, id, decision, response, now).core.logs ==
              PinnedAppended(p.core.logs, id, ResponseText(response), now)
  {
    hide PinnedAppended, ResponseText, UpdateScore;
  }

  lemma SettleLogs(p: Pipe, id: EventId, resolution: Resolution, now: Time)
    ensures Settle(p, id, resolution, now).core.logs == p.core.logs
  {
  }

  // ---- down to the keys -------------------------------------------------------------------------------

  /** The rows and the cursor of a dialog that is a menu. */
  function MenuOn(live: AgentState): Option<(seq<string>, nat)> {
    match live
    case CommandConfirmation(_, selected, menu) => Some((menu, selected))
    case FileEditConfirmation(_, selected, menu) => Some((menu, selected))
    case WorkspaceTrust(_, _, menu, selected) => Some((menu, selected))
    case _ => None
  }

  /** The keys submit the menu at its first row that begins with `prefix`. */
  ghost predicate SubmitsFirst(keys: seq<InputEncoder.Key>, rows: seq<string>, selected: nat, prefix: string) {
    var done := MenuProof.PressAll(|rows|, None, MenuProof.Open(selected, {}, []),
                                   InputEncoder.KeysIn(InputEncoder.BytesOf(keys)));
    && done.Submitted? && done.cursor < |rows|
    && InputEncoder.StartsWith(TrimStart(rows[done.cursor]), prefix)
    && forall j :: 0 <= j < done.cursor ==> !InputEncoder.StartsWith(TrimStart(rows[j]), prefix)
  }

  lemma MenuEncoded(live: AgentState, response: RequestResponse)
    requires MenuOn(live).Some?
    ensures var (rows, selected) := MenuOn(live).value;
            InputEncoder.EncodeForState(live, response) == InputEncoder.MenuInput(response, rows, selected)
  {
    hide InputEncoder.MenuInput;
  }

  /** A request that a human denies is, on a menu, submitted at the first row beginning with No or not at all;
      and a plain approval at the first beginning with Yes. The response is the one in the command that
      answering the request added to the channel. */
  lemma AnswerOnMenu(response: RequestResponse, decision: Decision, selected: Option<seq<string>>, text: Option<string>,
                     live: AgentState)
    requires Says(response, decision, selected, text) && MenuOn(live).Some?
    requires decision == Deny || (text.None? && (selected.None? || selected.value == []))
    ensures var (rows, cursor) := MenuOn(live).value;
            var input, prefix := InputEncoder.EncodeForState(live, response), if decision == Deny then "No" else "Yes";
            && (input.Ok? ==> input.value.Submit?)
            && (input.Ok? ==> SubmitsFirst(input.value.keys, rows, cursor, prefix))
            && (input.Err? <==> cursor >= |rows| || NoneBegins(rows, prefix))
  {
    hide InputEncoder.EncodeForState, InputEncoder.EncodeMenuChoice, InputEncoder.StartsWith, TrimStart,
      MenuProof.RowAnswers, MenuProof.PressAll, InputEncoder.KeysIn, InputEncoder.BytesOf;
    MenuEncoded(live, response);
    var (rows, cursor) := MenuOn(live).value;
    MenuProof.MenuChoiceCorrect(response, rows, cursor);
    forall i | 0 <= i < |rows|
      ensures MenuProof.RowAnswers(response, rows, i) <==>
                InputEncoder.StartsWith(TrimStart(rows[i]), if decision == Deny then "No" else "Yes")
    {
      PlainAnswers(response, rows, i);
    }
  }

  ghost predicate NoneBegins(rows: seq<string>, prefix: string) {
    forall i :: 0 <= i < |rows| ==> !InputEncoder.StartsWith(TrimStart(rows[i]), prefix)
  }

  lemma PlainAnswers(response: RequestResponse, rows: seq<string>, i: nat)
    requires i < |rows|
    ensures response == DenyResponse ==>
              (MenuProof.RowAnswers(response, rows, i) <==> InputEncoder.StartsWith(TrimStart(rows[i]), "No"))
    ensures response == ApproveResponse ==>
              (MenuProof.RowAnswers(response, rows, i) <==> InputEncoder.StartsWith(TrimStart(rows[i]), "Yes"))
  {
    hide InputEncoder.StartsWith, TrimStart;
  }

  /** From the human to the menu: the command that a denial adds to the channel, typed into any menu that the
      adapter finds on screen, submits the first row beginning with No, or is refused if there is none. */
  lemma DenialReachesNo(core: Core, client: ClientId, requestId: Option<string>, id: EventId, selected: Option<seq<string>>,
                        text: Option<string>, now: Time, freshId: EventId, live: AgentState)
    requires CoreOk(core) && id in core.entries && core.entries[id].resolution == Some(Unresolved)
    requires core.responder.Some? && HasRoom(core.responder.value) && MenuOn(live).Some?
    ensures var ch := core.responder.value;
            var q := Step(core, FromClient(client, requestId, Respond(id, Deny, selected, text)), now, freshId).core;
            && q.responder.Some? && |q.responder.value.queue| == |ch.queue| + 1
            && q.responder.value.queue[|ch.queue|].RespondCommand?
            && var input := InputEncoder.EncodeForState(live, q.responder.value.queue[|ch.queue|].response);
               var (rows, cursor) := MenuOn(live).value;
               if input.Ok? then input.value.Submit? && SubmitsFirst(input.value.keys, rows, cursor, "No")
               else cursor >= |rows| || NoneBegins(rows, "No")
  {
    hide Step, CoreOk, InputEncoder.EncodeForState, SubmitsFirst, NoneBegins;
    AnswerSent(core, client, requestId, id, Deny, selected, text, now, freshId);
    var q := Step(core, FromClient(client, requestId, Respond(id, Deny, selected, text)), now, freshId).core;
    AnswerOnMenu(q.responder.value.queue[|core.responder.value.queue|].response, Deny, selected, text, live);
  }

  /** A denied question is skipped: the bytes are one Escape, which no menu or text entry takes for an answer. */
  lemma DeniedQuestion(details: QuestionDetails)
    ensures InputEncoder.EncodeQuestion(DenyResponse, details) == Ok(InputEncoder.Submit([InputEncoder.Escape_]))
    ensures InputEncoder.BytesOf([InputEncoder.Escape_]) == [0x1b]
    ensures forall n, w, m: MenuProof.Menu ::
              MenuProof.PressAll(n, w, m, InputEncoder.KeysIn([0x1b])) == MenuProof.Left
    ensures forall e: MenuProof.Entry :: MenuProof.TypeAll(e, InputEncoder.KeysIn([0x1b])) == MenuProof.Abandoned
  {
    assert [InputEncoder.Escape_][1..] == [];
    assert [0x1b][1..] == [];
    assert InputEncoder.KeysIn([0x1b]) == [InputEncoder.Escape_];
  }
}
