/** Nothing is lost on the way through the pipeline: events are counted, numbered and stored once
    each, and every event can find exactly the log lines it arrived with. */
module Conservation {
  import opened Types
  import opened PriorityQueues
  import opened Tracker
  import opened LogStores
  import LogHistory
  import opened CoreMachine
  import opened Coherence
  import opened Clients
  import opened Delivery
  import opened Agreement

  // ---- counts -----------------------------------------------------------------------------------

  ghost predicate CountsBalance(core: Core) {
    var m := core.metrics;
    && m.rawEvents == m.processedEvents + m.droppedEvents
    && m.processedEvents == m.surfacedSummaries == core.nextSeq
    && core.nextSeq == |core.events| == |core.entries|
  }

  /** A step counts at most one event, and only then adds one to the store and the queue. */
  ghost predicate SameCounts(a: Core, b: Core) {
    && b.metrics.rawEvents == a.metrics.rawEvents && b.metrics.processedEvents == a.metrics.processedEvents
    && b.metrics.droppedEvents == a.metrics.droppedEvents && b.metrics.surfacedSummaries == a.metrics.surfacedSummaries
  }

  lemma {:induction false} EscalateAllCounts(p: Pipe, actions: seq<EscalationAction>, now: Time)
    ensures SameCounts(p.core, EscalateAll(p, actions, now).core)
    ensures EscalateAll(p, actions, now).core.logs == p.core.logs
  {
    if actions != [] {
      EscalateAllCounts(p, actions[..|actions| - 1], now);
    }
  }

  lemma {:induction false} SupersedeAllCounts(p: Pipe, ids: seq<EventId>)
    ensures SupersedeAll(p, ids).core.metrics == p.core.metrics
    ensures SupersedeAll(p, ids).core == p.core.(entries := SupersedeAll(p, ids).core.entries)
  {
    if ids != [] {
      SupersedeAllCounts(p, ids[..|ids| - 1]);
    }
  }

  lemma RespondCounts(p: Pipe, client: ClientId, requestId: Option<string>, id: EventId, decision: Decision,
                      response: RequestResponse, now: Time)
    ensures SameCounts(p.core, RespondStep(p, client, requestId, id, decision, response, now).core)
  {
    hide PinnedAppended, ResponseText, CommandFor, Accepts, Settle, AcceptResponse;
    if id in p.core.entries {
      AcceptedOnly(p, client, id, decision, response, now);
      forall q: Pipe, resolution ensures EntriesOnly(q, Settle(q, id, resolution, now)) {
        SettledOnly(q, id, resolution, now);
      }
    }
  }

  ghost predicate EntriesOnly(p: Pipe, q: Pipe) {
    q.core == p.core.(entries := q.core.entries)
  }

  lemma SettledOnly(p: Pipe, id: EventId, resolution: Resolution, now: Time)
    ensures EntriesOnly(p, Settle(p, id, resolution, now))
  {
    hide Rescored;
  }

  lemma AcceptedOnly(p: Pipe, client: ClientId, id: EventId, decision: Decision, response: RequestResponse, now: Time)
    requires id in p.core.entries
    ensures var q := AcceptResponse(p, client, id, decision, response, now);
            q.core == p.core.(entries := q.core.entries,
                              logs := PinnedAppended(p.core.logs, id, ResponseText(response), now),
                              metrics := p.core.metrics.(responses := p.core.metrics.responses + 1))
  {
    hide Rescored, PinnedAppended, ResponseText;
  }

  lemma ClientCounts(p: Pipe, client: ClientId, requestId: Option<string>, request: ClientRequest, now: Time)
    ensures SameCounts(p.core, ClientStep(p, client, requestId, request, now).core)
  {
    hide RespondStep, DetailsStep, FromRespondRequest, EventLogs, LogPrompt, Lines, LogAppended;
    if request.Respond? {
      RespondCounts(p, client, requestId, request.id, request.decision,
                    FromRespondRequest(request.decision, request.selected, request.text), now);
    } else if request.GetEventDetails? {
      DetailsCounts(p, client, requestId, request.id, now);
    }
  }

  lemma DetailsCounts(p: Pipe, client: ClientId, requestId: Option<string>, id: EventId, now: Time)
    ensures SameCounts(p.core, DetailsStep(p, client, requestId, id, now).core)
  {
    hide Rescored;
  }

  lemma OutcomeCounts(p: Pipe, outcome: AdapterOutcome, now: Time)
    ensures SameCounts(p.core, OutcomeStep(p, outcome, now).core)
  {
    hide Rescored;
  }

  lemma QuietCounts(core: Core, command: Command, now: Time, id: EventId)
    requires !command.AdapterEvent?
    ensures SameCounts(core, Step(core, command, now, id).core)
  {
    hide EscalateAll, RescoreUpdates, RescoredEntries, TickActions, TickedTasks, ClientStep, OutcomeStep, SnapshotBody,
      LogAppended;
    var p := Pipe(core, []);
    match command
    case Tick =>
      var rescored := RescoreStep(p, now);
      EscalateAllCounts(rescored.(core := rescored.core.(open := TickedTasks(core.open, core.thresholds, now))),
                        TickActions(core.open, core.thresholds, now), now);
    case FromClient(client, requestId, request) => ClientCounts(p, client, requestId, request, now);
    case AdapterResponse(outcome) => OutcomeCounts(p, outcome, now);
    case _ =>
  }

  lemma EventCounts(core: Core, raw: RawEvent, now: Time, id: EventId)
    requires id !in core.events && id !in core.entries && core.entries.Keys == core.events.Keys && CountsBalance(core)
    ensures CountsBalance(Step(core, AdapterEvent(raw), now, id).core)
  {
    hide Malformed, MakeEvent, MakeEntry, MakeLogs, FinalClass, Observed, SupersedeAll;
    if !Malformed(raw) {
      var event := MakeEvent(core, raw, now, id);
      var observed := Pipe(Processed(core, raw, now, id).(open := Observed(core.open, event).0), []);
      SupersedeAllCounts(observed, Displaced(core, event));
      SupersedeAllMarks(observed, Displaced(core, event));
      var core' := SupersedeAll(observed, Displaced(core, event)).core;
      OneMore(core.events, core'.events, id);
      OneMore(core.entries, core'.entries, id);
    }
  }

  lemma OneMore<T>(m: map<EventId, T>, m': map<EventId, T>, id: EventId)
    requires id !in m && m'.Keys == m.Keys + {id}
    ensures |m'| == |m| + 1
  {
    assert |m'| == |m'.Keys| && |m| == |m.Keys|;
  }

  lemma StepBalance(core: Core, input: Input)
    requires CoreOk(core) && CountsBalance(core) && input.freshId !in core.events
    ensures CountsBalance(Step(core, input.command, input.now, input.freshId).core)
  {
    hide Step, CoreOk;
    KeysAgree(core);
    if input.command.AdapterEvent? {
      EventCounts(core, input.command.raw, input.now, input.freshId);
    } else {
      QuietCounts(core, input.command, input.now, input.freshId);
      QuietFrame(core, input.command, input.now, input.freshId);
      var core' := Step(core, input.command, input.now, input.freshId).core;
      assert |core'.entries| == |core'.entries.Keys| && |core.entries| == |core.entries.Keys|;
    }
  }

  /** Over any run, raw events are processed or dropped, and the processed ones are numbered 1, 2, 3
      and so on without repetition, each with one entry in the store and one in the queue. */
  lemma {:induction false} EventsConserved(states: seq<System>, inputs: seq<Input>, i: nat)
    requires Run(states, inputs) && i < |states|
    ensures CountsBalance(states[i].core)
    ensures var events := states[i].core.events;
            && events.Keys == states[i].core.entries.Keys
            && (forall a :: a in events ==> 1 <= events[a].seqNo <= states[i].core.nextSeq)
            && (forall a, b :: a in events && b in events && events[a].seqNo == events[b].seqNo ==> a == b)
  {
    hide EntryOk, Step, CountsBalance;
    RunOk(states, inputs, i);
    if i == 0 {
      InitialBalance(states[0]);
    } else {
      EventsConserved(states, inputs, i - 1);
      RunOk(states, inputs, i - 1);
      assert Next(states[i - 1], inputs[i - 1], states[i]);
      StepBalance(states[i - 1].core, inputs[i - 1]);
    }
  }

  lemma InitialBalance(s: System)
    requires Initial(s)
    ensures CountsBalance(s.core)
  {
  }

  // ---- logs -------------------------------------------------------------------------------------

  function PromptOps(agent: AgentId, lines: seq<string>, now: Time): seq<LogHistory.Op> {
    if lines == [] then []
    else PromptOps(agent, lines[..|lines| - 1], now) + [LogHistory.AppendLine(agent, "User: " + lines[|lines| - 1], now)]
  }

  function EventOps(core: Core, raw: RawEvent, now: Time, id: EventId): seq<LogHistory.Op> {
    var event := MakeEvent(core, raw, now, id);
    (if raw.logLines == [] then [] else [LogHistory.AppendLines(raw.agentId, raw.logLines, now)]) +
    [if NeedsPin(event.category) then LogHistory.PinEvent(id, raw.agentId, event.logRange.(pinned := false))
     else LogHistory.RegisterOnly(id, raw.agentId)]
  }

  /** The log store operations that a step performs. */
  function LogOps(core: Core, input: Input): seq<LogHistory.Op> {
    match input.command
    case AdapterLine(agent, text) => [LogHistory.AppendLine(agent, text, input.now)]
    case AdapterEvent(raw) => if Malformed(raw) then [] else EventOps(core, raw, input.now, input.freshId)
    case FromClient(client, requestId, request) =>
      (match request
       case Respond(id, decision, selected, text) =>
         if id in core.entries && core.entries[id].resolution == Some(Unresolved)
         then [LogHistory.RecordResponse(id, ResponseText(FromRespondRequest(decision, selected, text)), input.now)]
         else []
       case StartTask(prompt, agentId) =>
         var agent := if agentId.Some? then agentId.value else DEFAULT_TASK;
         [LogHistory.AppendLine(agent, "> Prompt: " + prompt, input.now)] + PromptOps(agent, Lines(prompt), input.now)
       case _ => [])
    case _ => []
  }

  function ApplyAll(s: LogState, ops: seq<LogHistory.Op>): LogState {
    if ops == [] then s else LogHistory.Apply(ApplyAll(s, ops[..|ops| - 1]), ops[|ops| - 1])
  }

  lemma {:induction false} RunExtends(config: LogConfig, ops: seq<LogHistory.Op>, more: seq<LogHistory.Op>)
    ensures LogHistory.Run(config, ops + more) == ApplyAll(LogHistory.Run(config, ops), more)
  {
    if more == [] {
      assert ops + more == ops;
    } else {
      assert (ops + more)[..|ops + more| - 1] == ops + more[..|more| - 1];
      RunExtends(config, ops, more[..|more| - 1]);
    }
  }

  lemma ApplyOne(s: LogState, op: LogHistory.Op)
    ensures ApplyAll(s, [op]) == LogHistory.Apply(s, op)
  {
    assert [op][..0] == [];
    assert ApplyAll(s, [op][..0]) == s;
  }

  lemma ApplyTwo(s: LogState, first: LogHistory.Op, second: LogHistory.Op)
    ensures ApplyAll(s, [first] + [second]) == LogHistory.Apply(LogHistory.Apply(s, first), second)
  {
    assert ([first] + [second])[..1] == [first];
    ApplyOne(s, first);
  }

  lemma {:induction false} PromptLogs(s: LogState, agent: AgentId, lines: seq<string>, now: Time, first: LogHistory.Op)
    ensures ApplyAll(s, [first] + PromptOps(agent, lines, now)) == LogPrompt(LogHistory.Apply(s, first), agent, lines, now)
  {
    if lines == [] {
      assert [first] + PromptOps(agent, lines, now) == [first];
      ApplyOne(s, first);
    } else {
      var init := lines[..|lines| - 1];
      PromptLogs(s, agent, init, now, first);
      var ops := [first] + PromptOps(agent, lines, now);
      assert ops[..|ops| - 1] == [first] + PromptOps(agent, init, now);
    }
  }

  lemma RespondLogs(p: Pipe, client: ClientId, requestId: Option<string>, id: EventId, decision: Decision,
                    response: RequestResponse, now: Time)
    ensures RespondStep(p, client, requestId, id, decision, response, now).core.logs
         == if id in p.core.entries && p.core.entries[id].resolution == Some(Unresolved)
            then PinnedAppended(p.core.logs, id, ResponseText(response), now) else p.core.logs
  {
    hide PinnedAppended, ResponseText, CommandFor, Accepts, Settle, AcceptResponse;
    if id in p.core.entries {
      AcceptedOnly(p, client, id, decision, response, now);
      forall q: Pipe, resolution ensures EntriesOnly(q, Settle(q, id, resolution, now)) {
        SettledOnly(q, id, resolution, now);
      }
    }
  }

  lemma EventLogsStep(core: Core, raw: RawEvent, now: Time, id: EventId)
    requires !Malformed(raw)
    ensures Step(core, AdapterEvent(raw), now, id).core.logs == ApplyAll(core.logs, EventOps(core, raw, now, id))
  {
    hide Malformed, MakeEvent, MakeEntry, MakeMetrics, FinalClass, Observed, SupersedeAll, LogAppendedAll, Pinned;
    var event := MakeEvent(core, raw, now, id);
    SupersedeAllCounts(Pipe(Processed(core, raw, now, id).(open := Observed(core.open, event).0), []), Displaced(core, event));
    var last := EventOps(core, raw, now, id)[|EventOps(core, raw, now, id)| - 1];
    if raw.logLines == [] {
      assert EventOps(core, raw, now, id) == [last];
      ApplyOne(core.logs, last);
    } else {
      ApplyTwo(core.logs, LogHistory.AppendLines(raw.agentId, raw.logLines, now), last);
    }
  }

  /** Each step performs exactly its log operations. */
  lemma StepLogs(core: Core, input: Input)
    ensures Step(core, input.command, input.now, input.freshId).core.logs == ApplyAll(core.logs, LogOps(core, input))
  {
    hide EscalateAll, RescoreUpdates, RescoredEntries, TickActions, TickedTasks, RespondStep, SnapshotBody, UpdateScore,
      FromRespondRequest, EventLogs, LogPrompt, Lines, LogAppended, PinnedAppended, EventStep, EventOps, PromptOps, ResponseText;
    var p, now, id := Pipe(core, []), input.now, input.freshId;
    match input.command
    case Tick =>
      var rescored := RescoreStep(p, now);
      EscalateAllCounts(rescored.(core := rescored.core.(open := TickedTasks(core.open, core.thresholds, now))),
                        TickActions(core.open, core.thresholds, now), now);
    case AdapterLine(agent, text) => ApplyOne(core.logs, LogHistory.AppendLine(agent, text, now));
    case AdapterEvent(raw) =>
      if Malformed(raw) {
        DroppedLogs(p, raw, now, id);
      } else {
        EventLogsStep(core, raw, now, id);
      }
    case FromClient(client, requestId, request) =>
      if request.Respond? {
        var response := FromRespondRequest(request.decision, request.selected, request.text);
        RespondLogs(p, client, requestId, request.id, request.decision, response, now);
        ApplyOne(core.logs, LogHistory.RecordResponse(request.id, ResponseText(response), now));
      } else if request.StartTask? {
        var agent := if request.agentId.Some? then request.agentId.value else DEFAULT_TASK;
        PromptLogs(core.logs, agent, Lines(request.prompt), now, LogHistory.AppendLine(agent, "> Prompt: " + request.prompt, now));
      } else if request.GetEventDetails? {
        DetailsLogs(p, client, requestId, request.id, now);
      }
    case AdapterResponse(outcome) => OutcomeLogs(p, outcome, now);
    case _ =>
  }

  lemma DroppedLogs(p: Pipe, raw: RawEvent, now: Time, id: EventId)
    requires Malformed(raw)
    ensures EventStep(p, raw, now, id).core.logs == p.core.logs
  {
  }

  lemma DetailsLogs(p: Pipe, client: ClientId, requestId: Option<string>, id: EventId, now: Time)
    ensures DetailsStep(p, client, requestId, id, now).core.logs == p.core.logs
  {
  }

  lemma OutcomeLogs(p: Pipe, outcome: AdapterOutcome, now: Time)
    ensures OutcomeStep(p, outcome, now).core.logs == p.core.logs
  {
  }

  /** All log operations of a run so far. */
  ghost function OpsSoFar(states: seq<System>, inputs: seq<Input>, i: nat): seq<LogHistory.Op>
    requires i <= |inputs| <= |states|
  {
    if i == 0 then [] else OpsSoFar(states, inputs, i - 1) + LogOps(states[i - 1].core, inputs[i - 1])
  }

  ghost function ConfigOf(states: seq<System>): LogConfig
    requires states != []
  {
    states[0].core.logs.config
  }

  lemma {:induction false} RunLogs(states: seq<System>, inputs: seq<Input>, i: nat)
    requires Run(states, inputs) && i < |states|
    ensures states[i].core.logs == LogHistory.Run(ConfigOf(states), OpsSoFar(states, inputs, i))
  {
    hide Step, LogOps, ApplyAll;
    if i == 0 {
      assert states[0].core.logs == EmptyLogs(ConfigOf(states));
    } else {
      RunLogs(states, inputs, i - 1);
      assert Next(states[i - 1], inputs[i - 1], states[i]);
      StepLogs(states[i - 1].core, inputs[i - 1]);
      RunExtends(ConfigOf(states), OpsSoFar(states, inputs, i - 1), LogOps(states[i - 1].core, inputs[i - 1]));
    }
  }

  lemma {:induction false} HistoryGrows(ops: seq<LogHistory.Op>, more: seq<LogHistory.Op>, agent: AgentId)
    ensures LogHistory.History(ops, agent) <= LogHistory.History(ops + more, agent)
  {
    if more == [] {
      assert ops + more == ops;
    } else {
      assert (ops + more)[..|ops + more| - 1] == ops + more[..|more| - 1];
      HistoryGrows(ops, more[..|more| - 1], agent);
    }
  }

  lemma {:induction false} OpsGrow(states: seq<System>, inputs: seq<Input>, i: nat, j: nat)
    requires i <= j <= |inputs| <= |states|
    ensures OpsSoFar(states, inputs, i) <= OpsSoFar(states, inputs, j)
  {
    hide LogOps;
    if i < j {
      OpsGrow(states, inputs, i, j - 1);
    }
  }

  /** The lines that arrived with an event extend its agent's history by exactly its log range. */
  lemma EventLinesRecorded(config: LogConfig, ops: seq<LogHistory.Op>, core: Core, raw: RawEvent, now: Time, id: EventId)
    requires !Malformed(raw) && core.logs == LogHistory.Run(config, ops)
    ensures var range := MakeEvent(core, raw, now, id).logRange;
            var before := LogHistory.History(ops, raw.agentId);
            var after := LogHistory.History(ops + EventOps(core, raw, now, id), raw.agentId);
            && range.start == |before| && range.end == |before| + |raw.logLines|
            && after == before + LogHistory.Numbered(range.start, raw.logLines, now)
  {
    hide Malformed, FinalClass, LogHistory.Retained;
    var eventOps := EventOps(core, raw, now, id);
    var lines := [LogHistory.AppendLines(raw.agentId, raw.logLines, now)];
    LogHistory.StoreKeepsSuffix(config, ops, raw.agentId);
    LogHistory.StoreKeepsSuffix(config, ops + lines, raw.agentId);
    RunExtends(config, ops, lines);
    ApplyOne(core.logs, lines[0]);
    assert (ops + lines)[..|ops|] == ops;
    var all := ops + eventOps;
    if raw.logLines == [] {
      assert all[..|all| - 1] == ops;
    } else {
      assert all[..|all| - 1] == ops + lines;
    }
  }

  // ---- stored events ----------------------------------------------------------------------------

  lemma EventsStay(core: Core, input: Input, id: EventId)
    requires CoreOk(core) && id in core.events && input.freshId !in core.events
    ensures var events := Step(core, input.command, input.now, input.freshId).core.events;
            id in events && events[id] == core.events[id]
  {
    hide Step, CoreOk, MakeEvent, MakeEntry, Malformed, Observed, Displaced;
    KeysAgree(core);
    if input.command.AdapterEvent? {
      if Malformed(input.command.raw) {
        DroppedFrame(core, input.command.raw, input.now, input.freshId);
      } else {
        EventStepEntries(core, input.command.raw, input.now, input.freshId);
      }
    } else {
      QuietFrame(core, input.command, input.now, input.freshId);
    }
  }

  /** A stored event never changes and never goes away. */
  lemma {:induction false} StoredForever(states: seq<System>, inputs: seq<Input>, i: nat, j: nat, id: EventId)
    requires Run(states, inputs) && i <= j <= |inputs| && id in states[i].core.events
    ensures id in states[j].core.events && states[j].core.events[id] == states[i].core.events[id]
  {
    hide Step, CoreOk;
    if i < j {
      StoredForever(states, inputs, i, j - 1, id);
      RunOk(states, inputs, j - 1);
      assert Next(states[j - 1], inputs[j - 1], states[j]);
      EventsStay(states[j - 1].core, inputs[j - 1], id);
    }
  }

  /** The event that a step makes is what the store holds under its id ever after. */
  lemma MadeIsStored(states: seq<System>, inputs: seq<Input>, i: nat, j: nat)
    requires Run(states, inputs) && i < j <= |inputs|
    requires inputs[i].command.AdapterEvent? && !Malformed(inputs[i].command.raw)
    ensures var id := inputs[i].freshId;
            && id in states[j].core.events
            && states[j].core.events[id] == MakeEvent(states[i].core, inputs[i].command.raw, inputs[i].now, id)
  {
    hide Malformed, MakeEvent, Step;
    assert Next(states[i], inputs[i], states[i + 1]);
    NewEventStored(states[i].core, inputs[i].command.raw, inputs[i].now, inputs[i].freshId);
    StoredForever(states, inputs, i + 1, j, inputs[i].freshId);
  }

  /** Once an event is processed, the log range stored with it selects, in its agent's full history and forever
      after, exactly the lines it arrived with; and it is marked pinned exactly when it is a request
      or an error. */
  lemma EventFindsItsLines(states: seq<System>, inputs: seq<Input>, i: nat, j: nat)
    requires Run(states, inputs) && i < j <= |inputs|
    requires inputs[i].command.AdapterEvent? && !Malformed(inputs[i].command.raw)
    ensures var raw, id := inputs[i].command.raw, inputs[i].freshId;
            && id in states[j].core.events
            && var event := states[j].core.events[id];
            var history := LogHistory.History(OpsSoFar(states, inputs, j), raw.agentId);
            && event.logRange.start <= event.logRange.end <= |history|
            && history[event.logRange.start..event.logRange.end]
                 == LogHistory.Numbered(event.logRange.start, raw.logLines, inputs[i].now)
            && (event.logRange.pinned <==> event.category == Request || event.category == Error)
  {
    hide Run, Malformed, EventOps, MakeEvent, OpsSoFar, ConfigOf;
    var raw, now, id := inputs[i].command.raw, inputs[i].now, inputs[i].freshId;
    RunShape(states, inputs);
    RunLogs(states, inputs, i);
    OpsOfEvent(states, inputs, i);
    OpsGrow(states, inputs, i + 1, j);
    LateHistory(ConfigOf(states), OpsSoFar(states, inputs, i), OpsSoFar(states, inputs, j), states[i].core, raw, now, id);
    PinnedWhenNeeded(states[i].core, raw, now, id);
    MadeIsStored(states, inputs, i, j);
  }

  lemma RunShape(states: seq<System>, inputs: seq<Input>)
    requires Run(states, inputs)
    ensures |states| == |inputs| + 1
  {
  }

  lemma OpsOfEvent(states: seq<System>, inputs: seq<Input>, i: nat)
    requires i < |inputs| < |states| && inputs[i].command.AdapterEvent? && !Malformed(inputs[i].command.raw)
    ensures OpsSoFar(states, inputs, i + 1)
         == OpsSoFar(states, inputs, i) + EventOps(states[i].core, inputs[i].command.raw, inputs[i].now, inputs[i].freshId)
  {
    hide EventOps, Malformed;
  }

  /** The range of an event selects its lines in any history that goes on after it. */
  lemma LateHistory(config: LogConfig, before: seq<LogHistory.Op>, late: seq<LogHistory.Op>, core: Core, raw: RawEvent,
                    now: Time, id: EventId)
    requires !Malformed(raw) && core.logs == LogHistory.Run(config, before)
    requires before + EventOps(core, raw, now, id) <= late
    ensures var range := MakeEvent(core, raw, now, id).logRange;
            var history := LogHistory.History(late, raw.agentId);
            && range.start <= range.end <= |history|
            && history[range.start..range.end] == LogHistory.Numbered(range.start, raw.logLines, now)
  {
    hide Malformed, MakeEvent, EventOps, LogHistory.Run, LogHistory.History, LogHistory.Numbered;
    EventLinesRecorded(config, before, core, raw, now, id);
    var soon := before + EventOps(core, raw, now, id);
    assert late == soon + late[|soon|..];
    HistoryGrows(soon, late[|soon|..], raw.agentId);
    var start := MakeEvent(core, raw, now, id).logRange.start;
    NumberedLength(start, raw.logLines, now);
    MiddleOfPrefix(LogHistory.History(before, raw.agentId), LogHistory.Numbered(start, raw.logLines, now),
                   LogHistory.History(late, raw.agentId));
  }

  lemma PinnedWhenNeeded(core: Core, raw: RawEvent, now: Time, id: EventId)
    ensures var event := MakeEvent(core, raw, now, id);
            event.logRange.pinned <==> event.category == Request || event.category == Error
  {
  }

  lemma NumberedLength(start: nat, lines: seq<string>, now: Time)
    ensures |LogHistory.Numbered(start, lines, now)| == |lines|
  {
  }

  lemma MiddleOfPrefix<T>(a: seq<T>, b: seq<T>, all: seq<T>)
    requires a + b <= all
    ensures |a| + |b| <= |all| && all[|a|..|a| + |b|] == b
  {
    assert all[..|a + b|] == a + b;
  }

  // ---- pinned windows ---------------------------------------------------------------------------

  /** The window keeps its start and its lines, and may grow. */
  ghost predicate WindowGrew(w: PinnedWindow, w': PinnedWindow) {
    w'.startOffset == w.startOffset && w.lines <= w'.lines
  }

  lemma {:induction false} WindowKept(s: LogState, ops: seq<LogHistory.Op>, id: EventId)
    requires id in s.pinned && forall op :: op in ops && op.PinEvent? ==> op.id != id
    ensures id in ApplyAll(s, ops).pinned && WindowGrew(s.pinned[id], ApplyAll(s, ops).pinned[id])
  {
    if ops != [] {
      WindowKept(s, ops[..|ops| - 1], id);
    }
  }

  lemma {:induction false} PromptNeverPins(agent: AgentId, lines: seq<string>, now: Time)
    ensures forall op :: op in PromptOps(agent, lines, now) ==> !op.PinEvent?
  {
    if lines != [] {
      PromptNeverPins(agent, lines[..|lines| - 1], now);
    }
  }

  /** No step pins an event that exists already. */
  lemma StepPinsFresh(core: Core, input: Input, id: EventId)
    requires id in core.events && input.freshId !in core.events
    ensures forall op :: op in LogOps(core, input) && op.PinEvent? ==> op.id != id
  {
    hide MakeEvent, Lines, ResponseText, FromRespondRequest;
    if input.command.FromClient? && input.command.request.StartTask? {
      var agentId := input.command.request.agentId;
      PromptNeverPins(if agentId.Some? then agentId.value else DEFAULT_TASK, Lines(input.command.request.prompt), input.now);
    }
  }

  lemma {:induction false} WindowStays(states: seq<System>, inputs: seq<Input>, i: nat, j: nat, id: EventId)
    requires Run(states, inputs) && i <= j <= |inputs| && id in states[i].core.logs.pinned && id in states[i].core.events
    ensures id in states[j].core.logs.pinned
    ensures WindowGrew(states[i].core.logs.pinned[id], states[j].core.logs.pinned[id])
  {
    hide Step, LogOps, CoreOk;
    if i < j {
      WindowStays(states, inputs, i, j - 1, id);
      StoredForever(states, inputs, i, j - 1, id);
      RunOk(states, inputs, j - 1);
      var core := states[j - 1].core;
      assert Next(states[j - 1], inputs[j - 1], states[j]);
      StepLogs(core, inputs[j - 1]);
      StepPinsFresh(core, inputs[j - 1], id);
      WindowKept(core.logs, LogOps(core, inputs[j - 1]), id);
    }
  }

  /** The window holds `lines` at the offsets of `range`. */
  ghost predicate Covers(w: PinnedWindow, range: LogRange, lines: seq<LogLine>) {
    && w.startOffset <= range.start <= range.end
    && range.end - w.startOffset <= |w.lines|
    && w.lines[range.start - w.startOffset..range.end - w.startOffset] == lines
  }

  lemma GrownCovers(w: PinnedWindow, w': PinnedWindow, range: LogRange, lines: seq<LogLine>)
    requires Covers(w, range, lines) && WindowGrew(w, w')
    ensures Covers(w', range, lines)
  {
  }

  /** A slice of the history around an event covers its lines when none were evicted. */
  lemma SliceCovers(config: LogConfig, history: seq<LogLine>, range: LogRange, lines: seq<LogLine>)
    requires range.end == |history| && range.start == |history| - |lines|
    requires history[range.start..] == lines
    requires config.ringCapacity == 0 || |lines| <= config.ringCapacity
    ensures var from := Max(range.start - config.pinBefore, LogHistory.Oldest(config, history));
            Covers(PinnedWindow(from, LogHistory.Between(history, from, range.end + config.pinAfter)), range, lines)
  {
    var from := Max(range.start - config.pinBefore, LogHistory.Oldest(config, history));
    var window := LogHistory.Between(history, from, range.end + config.pinAfter);
    if lines != [] {
      assert window == history[from..];
    }
  }

  /** Right after it was processed, a request or error has a pinned window that contains every line it
      arrived with, provided the ring can hold that many. */
  lemma WindowHasLines(config: LogConfig, ops: seq<LogHistory.Op>, core: Core, raw: RawEvent, now: Time, id: EventId)
    requires !Malformed(raw) && core.logs == LogHistory.Run(config, ops)
    requires NeedsPin(MakeEvent(core, raw, now, id).category)
    requires config.ringCapacity == 0 || |raw.logLines| <= config.ringCapacity
    ensures var range := MakeEvent(core, raw, now, id).logRange;
            var all := LogHistory.Run(config, ops + EventOps(core, raw, now, id));
            && id in all.pinned
            && Covers(all.pinned[id], range, LogHistory.Numbered(range.start, raw.logLines, now))
  {
    hide Malformed, FinalClass, LogHistory.Run, LogHistory.Apply, Covers, LogHistory.Between, LogHistory.Oldest;
    var event := MakeEvent(core, raw, now, id);
    var all := ops + EventOps(core, raw, now, id);
    EventLinesRecorded(config, ops, core, raw, now, id);
    LogHistory.PinnedWindowIsHistory(config, all, id);
    var history := LogHistory.History(all[..|all| - 1], raw.agentId);
    assert all[|all| - 1] == LogHistory.PinEvent(id, raw.agentId, event.logRange.(pinned := false));
    assert history == LogHistory.History(all, raw.agentId);
    SliceCovers(config, history, event.logRange, LogHistory.Numbered(event.logRange.start, raw.logLines, now));
  }

  /** The pinned window of a request or error contains, forever after, every line the event arrived
      with, provided the ring could hold that many at once. */
  lemma PinnedWindowHasOwnLines(states: seq<System>, inputs: seq<Input>, i: nat, j: nat)
    requires Run(states, inputs) && i < j <= |inputs|
    requires inputs[i].command.AdapterEvent? && !Malformed(inputs[i].command.raw)
    requires NeedsPin(MakeEvent(states[i].core, inputs[i].command.raw, inputs[i].now, inputs[i].freshId).category)
    requires ConfigOf(states).ringCapacity == 0 || |inputs[i].command.raw.logLines| <= ConfigOf(states).ringCapacity
    ensures var raw, id := inputs[i].command.raw, inputs[i].freshId;
            && id in states[j].core.logs.pinned && id in states[j].core.events
            && var range := states[j].core.events[id].logRange;
            Covers(states[j].core.logs.pinned[id], range, LogHistory.Numbered(range.start, raw.logLines, inputs[i].now))
  {
    hide Malformed, FinalClass, EventOps, LogHistory.Run, Step, CoreOk, MakeEvent, Covers, WindowGrew, ApplyAll;
    var raw, now, id := inputs[i].command.raw, inputs[i].now, inputs[i].freshId;
    RunLogs(states, inputs, i);
    RunLogs(states, inputs, i + 1);
    WindowHasLines(ConfigOf(states), OpsSoFar(states, inputs, i), states[i].core, raw, now, id);
    assert Next(states[i], inputs[i], states[i + 1]);
    RunOk(states, inputs, i);
    RunOk(states, inputs, i + 1);
    NewEventStored(states[i].core, raw, now, id);
    WindowStays(states, inputs, i + 1, j, id);
    MadeIsStored(states, inputs, i, j);
    var range := MakeEvent(states[i].core, raw, now, id).logRange;
    GrownCovers(states[i + 1].core.logs.pinned[id], states[j].core.logs.pinned[id], range,
                LogHistory.Numbered(range.start, raw.logLines, now));
  }

  lemma NewEventStored(core: Core, raw: RawEvent, now: Time, id: EventId)
    requires !Malformed(raw)
    ensures var core' := Step(core, AdapterEvent(raw), now, id).core;
            id in core'.events && core'.events[id] == MakeEvent(core, raw, now, id)
  {
    hide Malformed, MakeEvent, MakeEntry, MakeLogs, MakeMetrics, SupersedeAll, Observed;
    var event := MakeEvent(core, raw, now, id);
    SupersedeAllCounts(Pipe(Processed(core, raw, now, id).(open := Observed(core.open, event).0), []), Displaced(core, event));
  }
}
