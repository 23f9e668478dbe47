/** The core task as a state machine: what each command does to the state, and what it sends. */
module CoreMachine {
  import opened Types
  import opened Ordering
  import opened Scoring
  import opened Classifier
  import opened PriorityQueues
  import opened Tracker
  import opened LogStores

  // ---- messages -------------------------------------------------------------------------------

  datatype Body =
    | EventPush(event: Event, entry: QueueEntry)
    | ScorePush(score: ScoreUpdate)
    | StatePush(state: StateUpdate)
    | Snapshot(entries: seq<QueueEntry>, events: seq<Event>)
    | RespondForward(id: EventId, decision: Decision)
    | StartTaskPush(prompt: string)
    | CommandResult(error: Option<CommandError>)
    | EventDetails(event: Event, entry: QueueEntry)
    | EventLogsReply(id: EventId, page: LogPage)
    | MetricsReply(metrics: Metrics)
    | ErrorReply(code: string)

  /** A message with the request id it answers, absent on pushes. */
  datatype Message = Message(requestId: Option<string>, body: Body)

  datatype Outgoing =
    | ToAll(body: Body)
    | ToClient(client: ClientId, message: Message)
    | ToOthers(client: ClientId, body: Body)

  datatype ClientRequest =
    | GetMetrics
    | Ack(id: EventId)
    | Dismiss(id: EventId)
    | Respond(id: EventId, decision: Decision, selected: Option<seq<string>>, text: Option<string>)
    | GetEventDetails(id: EventId)
    | GetEventLogs(id: EventId, offset: int, limit: nat)
    | StartTask(prompt: string, agentId: Option<AgentId>)
    | BridgeMessage
    | OtherMessage

  datatype AdapterCommand =
    | RespondCommand(id: EventId, taskId: TaskId, decision: Decision, requestSeq: Option<nat>,
                     response: RequestResponse, now: Time)
    | StartTaskCommand(prompt: string, agentId: Option<AgentId>, now: Time)

  datatype AdapterOutcome =
    | Delivered(id: EventId, decision: Decision)
    | NotDelivered(id: EventId, reason: string)

  datatype Command =
    | Tick
    | AdapterLine(agent: AgentId, text: string)
    | AdapterEvent(raw: RawEvent)
    | FromClient(client: ClientId, requestId: Option<string>, request: ClientRequest)
    | SendSnapshot(client: ClientId)
    | AdapterResponse(outcome: AdapterOutcome)
    | Connect(client: ClientId)
    | Disconnect(client: ClientId)
    | Shutdown

  // ---- state ----------------------------------------------------------------------------------

  datatype Metrics = Metrics(
    rawLines: nat, rawEvents: nat, processedEvents: nat, droppedEvents: nat, unclassifiedEvents: nat,
    surfacedSummaries: nat, escalations: nat, acks: nat, dismissals: nat, responses: nat,
    detailRefetches: nat, logPageRequests: nat)

  const NO_METRICS: Metrics := Metrics(0, 0, 0, 0, 0, 0, 0, 0, 0, 0, 0, 0)

  /** The bounded channel of commands to the adapter loop. */
  datatype Channel = Channel(capacity: nat, closed: bool, queue: seq<AdapterCommand>)

  datatype Core = Core(
    nextSeq: nat,
    events: Events,
    entries: Entries,
    open: OpenTasks,
    thresholds: ThresholdTable,
    logs: LogState,
    metrics: Metrics,
    responder: Option<Channel>)

  function Fresh0(config: LogConfig, thresholds: ThresholdTable, responder: Option<Channel>): Core {
    Core(0, map[], map[], map[], thresholds, EmptyLogs(config), NO_METRICS, responder)
  }

  /** The state reached so far within a step, and what has been sent on the way. */
  datatype Pipe = Pipe(core: Core, out: seq<Outgoing>)

  function Announce(p: Pipe, body: Body): Pipe {
    p.(out := p.out + [ToAll(body)])
  }

  function Reply(p: Pipe, client: ClientId, requestId: Option<string>, body: Body): Pipe {
    p.(out := p.out + [ToClient(client, Message(requestId, body))])
  }

  function SetEntry(p: Pipe, e: QueueEntry): Pipe {
    p.(core := p.core.(entries := p.core.entries[e.eventId := e]))
  }

  // ---- scores ---------------------------------------------------------------------------------

  /** Recomputes one entry's score and announces it when it changed. */
  function UpdateScore(p: Pipe, id: EventId, now: Time): Pipe {
    if id !in p.core.entries then p
    else
      var before := p.core.entries[id];
      var e := Rescored(before, p.core.events, now);
      var q := p.(core := p.core.(entries := p.core.entries[id := e]));
      if e.score != before.score then Announce(q, ScorePush(ScoreOf(e))) else q
  }

  function ScorePushes(updates: seq<ScoreUpdate>): seq<Outgoing> {
    seq(|updates|, i requires 0 <= i < |updates| => ToAll(ScorePush(updates[i])))
  }

  ghost function RescoreStep(p: Pipe, now: Time): Pipe {
    Pipe(p.core.(entries := RescoredEntries(p.core.entries, p.core.events, now)),
         p.out + ScorePushes(RescoreUpdates(p.core.entries, p.core.events, now)))
  }

  function EscalateOne(p: Pipe, action: EscalationAction, now: Time): Pipe {
    var counted := p.(core := p.core.(metrics := p.core.metrics.(escalations := p.core.metrics.escalations + 1)));
    var id := action.eventId;
    if id !in p.core.entries || p.core.entries[id].escalationLevel == action.level then counted
    else
      var raised := p.core.entries[id].(escalationLevel := action.level);
      UpdateScore(counted.(core := counted.core.(entries := p.core.entries[id := raised])), id, now)
  }

  function EscalateAll(p: Pipe, actions: seq<EscalationAction>, now: Time): Pipe {
    if actions == [] then p
    else EscalateOne(EscalateAll(p, actions[..|actions| - 1], now), actions[|actions| - 1], now)
  }

  ghost function TickStep(p: Pipe, now: Time): Pipe {
    var rescored := RescoreStep(p, now);
    var actions := TickActions(p.core.open, p.core.thresholds, now);
    var ticked := rescored.(core := rescored.core.(open := TickedTasks(p.core.open, p.core.thresholds, now)));
    EscalateAll(ticked, actions, now)
  }

  // ---- events ---------------------------------------------------------------------------------

  predicate Malformed(raw: RawEvent) {
    IsBlank(raw.agentId) || IsBlank(raw.kind) || raw.agentSeq == 0
  }

  /** A structured request makes the event a request, except that completions never are. */
  function FinalClass(raw: RawEvent): (Classification, Option<string>) {
    var c := Classify(raw.kind);
    if raw.request.Some? && c.category != Request then
      if c.category == Completed then (c, None)
      else (c.(category := Request, severity := Critical), raw.request)
    else (c, raw.request)
  }

  predicate NeedsPin(category: Category) {
    category == Request || category == Error
  }

  function CountRaw(m: Metrics): Metrics {
    m.(rawEvents := m.rawEvents + 1)
  }

  /** The logs after the lines that come with an event. */
  function WithLines(logs: LogState, raw: RawEvent, now: Time): LogState {
    if raw.logLines == [] then logs else LogAppendedAll(logs, raw.agentId, raw.logLines, now)
  }

  function MakeEvent(core: Core, raw: RawEvent, now: Time, id: EventId): Event {
    var (c, request) := FinalClass(raw);
    var logs := WithLines(core.logs, raw, now);
    var range := LogRange(NextOffset(core.logs, raw.agentId), NextOffset(logs, raw.agentId), NeedsPin(c.category));
    Event(id, core.nextSeq + 1, raw.agentSeq, raw.agentId, raw.taskId, now, c.category, c.severity,
          raw.kind, raw.operation, raw.message, range, request)
  }

  function MakeEntry(event: Event, now: Time): QueueEntry {
    NewEntry(event.eventId, event.category, event.seqNo,
             Score(NewEntry(event.eventId, event.category, event.seqNo, 0), event, now))
  }

  function MakeLogs(core: Core, raw: RawEvent, now: Time, id: EventId): LogState {
    var event := MakeEvent(core, raw, now, id);
    var logs := WithLines(core.logs, raw, now);
    if NeedsPin(event.category)
    then Pinned(logs, id, raw.agentId, event.logRange.(pinned := false))
    else Registered(logs, id, raw.agentId)
  }

  function MakeMetrics(core: Core, raw: RawEvent): Metrics {
    var m := CountRaw(core.metrics);
    var (c, request) := FinalClass(raw);
    m.(rawLines := m.rawLines + |raw.logLines|,
       unclassifiedEvents := m.unclassifiedEvents + (if c.matched == Fallback && request.None? then 1 else 0),
       processedEvents := m.processedEvents + 1,
       surfacedSummaries := m.surfacedSummaries + 1)
  }

  /** The core after a well-formed raw event was stored, queued and logged under the id `id`. */
  function Processed(core: Core, raw: RawEvent, now: Time, id: EventId): Core {
    var event := MakeEvent(core, raw, now, id);
    core.(nextSeq := core.nextSeq + 1,
          events := core.events[id := event],
          entries := core.entries[id := MakeEntry(event, now)],
          logs := MakeLogs(core, raw, now, id),
          metrics := MakeMetrics(core, raw))
  }

  function SupersedeOne(p: Pipe, id: EventId): Pipe {
    if id !in p.core.entries || Superseded(p.core.entries[id]) == p.core.entries[id] then p
    else
      var e := Superseded(p.core.entries[id]);
      Announce(p.(core := p.core.(entries := p.core.entries[id := e])), StatePush(StateOf(e)))
  }

  function SupersedeAll(p: Pipe, ids: seq<EventId>): Pipe {
    if ids == [] then p
    else SupersedeOne(SupersedeAll(p, ids[..|ids| - 1]), ids[|ids| - 1])
  }

  function Displaced(core: Core, event: Event): seq<EventId> {
    match Observed(core.open, event).1
    case None => []
    case Some(ids) => ids
  }

  function EventStep(p: Pipe, raw: RawEvent, now: Time, id: EventId): Pipe {
    if Malformed(raw) then
      p.(core := p.core.(metrics := CountRaw(p.core.metrics).(droppedEvents := p.core.metrics.droppedEvents + 1)))
    else
      var event := MakeEvent(p.core, raw, now, id);
      var processed := Processed(p.core, raw, now, id);
      var observed := p.(core := processed.(open := Observed(p.core.open, event).0));
      Announce(SupersedeAll(observed, Displaced(p.core, event)), EventPush(event, MakeEntry(event, now)))
  }

  function LineStep(p: Pipe, agent: AgentId, text: string, now: Time): Pipe {
    p.(core := p.core.(logs := LogAppended(p.core.logs, agent, text, now),
                       metrics := p.core.metrics.(rawLines := p.core.metrics.rawLines + 1)))
  }

  // ---- client requests -------------------------------------------------------------------------

  function AckStep(p: Pipe, client: ClientId, requestId: Option<string>, id: EventId): Pipe {
    if id !in p.core.entries then Reply(p, client, requestId, CommandResult(Some(NoSuchEvent)))
    else
      var before := p.core.entries[id];
      var e := Acked(before);
      var counted := SetEntry(p.(core := p.core.(metrics := p.core.metrics.(acks := p.core.metrics.acks + 1))), e);
      Reply(if e != before then Announce(counted, StatePush(StateOf(e))) else counted,
            client, requestId, CommandResult(None))
  }

  function DismissStep(p: Pipe, client: ClientId, requestId: Option<string>, id: EventId): Pipe {
    if id !in p.core.entries then Reply(p, client, requestId, CommandResult(Some(NoSuchEvent)))
    else
      var before := p.core.entries[id];
      var e := DismissedEntry(before);
      var counted :=
        SetEntry(p.(core := p.core.(metrics := p.core.metrics.(dismissals := p.core.metrics.dismissals + 1))), e);
      Reply(if e != before then Announce(counted, StatePush(StateOf(e))) else counted,
            client, requestId, CommandResult(None))
  }

  function Join(parts: seq<string>): string {
    if parts == [] then ""
    else if |parts| == 1 then parts[0]
    else parts[0] + ", " + Join(parts[1..])
  }

  function FromRespondRequest(decision: Decision, selected: Option<seq<string>>, text: Option<string>): RequestResponse {
    if decision == Deny then DenyResponse
    else if text.Some? then TextInput(text.value)
    else if selected.Some? && |selected.value| == 1 then SelectOption(selected.value[0])
    else if selected.Some? && |selected.value| > 1 then SelectMultiple(selected.value)
    else ApproveResponse
  }

  function ResponseText(response: RequestResponse): string {
    match response
    case SelectOption(option) => "> User selected: " + option
    case SelectMultiple(options) => "> User selected: " + Join(options)
    case TextInput(text) => "> User input: " + text
    case ApproveResponse => "> User approved"
    case DenyResponse => "> User denied"
  }

  const DEFAULT_TASK: TaskId := "antigravity-session"

  predicate Accepts(ch: Channel) {
    !ch.closed && |ch.queue| < ch.capacity
  }

  function Sent(ch: Channel, command: AdapterCommand): Channel {
    ch.(queue := ch.queue + [command])
  }

  function CommandFor(core: Core, id: EventId, decision: Decision, response: RequestResponse, now: Time): AdapterCommand {
    if id in core.events then
      var event := core.events[id];
      RespondCommand(id, if event.taskId.Some? then event.taskId.value else DEFAULT_TASK, decision,
                     Some(event.agentSeq), response, now)
    else RespondCommand(id, DEFAULT_TASK, decision, None, response, now)
  }

  /** Moves a pending request to `resolution`, re-scores it and announces the outcome. */
  function Settle(p: Pipe, id: EventId, resolution: Resolution, now: Time): Pipe {
    if id !in p.core.entries || p.core.entries[id].resolution != Some(PendingDelivery) then p
    else
      var e := p.core.entries[id].(resolution := Some(resolution));
      Announce(UpdateScore(p.(core := p.core.(entries := p.core.entries[id := e])), id, now),
               StatePush(StateOf(e)))
  }

  /** The part of a response before delivery is attempted. */
  function AcceptResponse(p: Pipe, client: ClientId, id: EventId, decision: Decision, response: RequestResponse,
                          now: Time): Pipe
    requires id in p.core.entries
  {
    var e := p.core.entries[id].(resolution := Some(PendingDelivery));
    var pending := p.(core := p.core.(entries := p.core.entries[id := e],
                                      metrics := p.core.metrics.(responses := p.core.metrics.responses + 1)));
    var scored := UpdateScore(pending, id, now);
    var announced := if p.core.responder.Some? then Announce(scored, StatePush(StateOf(e))) else scored;
    Pipe(announced.core.(logs := PinnedAppended(p.core.logs, id, ResponseText(response), now)),
         announced.out + [ToOthers(client, RespondForward(id, decision))])
  }

  function RespondStep(p: Pipe, client: ClientId, requestId: Option<string>, id: EventId, decision: Decision,
                       response: RequestResponse, now: Time): Pipe {
    if id !in p.core.entries then Reply(p, client, requestId, CommandResult(Some(NoSuchEvent)))
    else if PriorityQueues.RespondError(p.core.entries[id]).Some? then
      Reply(p, client, requestId, CommandResult(PriorityQueues.RespondError(p.core.entries[id])))
    else
      var accepted := AcceptResponse(p, client, id, decision, response, now);
      match p.core.responder
      case None =>
        Reply(Settle(accepted, id, ResolutionOf(decision), now), client, requestId, CommandResult(None))
      case Some(ch) =>
        if Accepts(ch) then
          var sent := Sent(ch, CommandFor(p.core, id, decision, response, now));
          Reply(accepted.(core := accepted.core.(responder := Some(sent))), client, requestId, CommandResult(None))
        else
          Reply(Settle(accepted, id, Unresolved, now), client, requestId, CommandResult(Some(DeliveryFailed)))
  }

  /** Opening an event's details marks it as seen. */
  function SeenStep(p: Pipe, id: EventId, now: Time): Pipe {
    if id !in p.core.entries then p
    else
      var counted := p.(core := p.core.(metrics := p.core.metrics.(detailRefetches := p.core.metrics.detailRefetches + 1)));
      var e := Acked(p.core.entries[id]);
      if e == p.core.entries[id] then counted
      else UpdateScore(Announce(SetEntry(counted, e), StatePush(StateOf(e))), id, now)
  }

  function DetailsStep(p: Pipe, client: ClientId, requestId: Option<string>, id: EventId, now: Time): Pipe {
    var seen := SeenStep(p, id, now);
    if id in seen.core.events && id in seen.core.entries
    then Reply(seen, client, requestId, EventDetails(seen.core.events[id], seen.core.entries[id]))
    else Reply(seen, client, requestId, ErrorReply("no_such_event"))
  }

  function LogsStep(p: Pipe, client: ClientId, requestId: Option<string>, id: EventId, offset: int, limit: nat): Pipe {
    var counted := p.(core := p.core.(metrics := p.core.metrics.(logPageRequests := p.core.metrics.logPageRequests + 1)));
    match EventLogs(p.core.logs, id, offset, limit)
    case Some(page) => Reply(counted, client, requestId, EventLogsReply(id, page))
    case None => Reply(counted, client, requestId, CommandResult(Some(NoSuchEvent)))
  }

  /** The lines of a text: terminated by a line feed, with a carriage return before it dropped; text
      after the last line feed is a line too, unless it is empty. */
  function Lines(text: string, current: string := ""): seq<string> {
    if text == [] then (if current == "" then [] else [current])
    else if text[0] == '\n' then [DropReturn(current)] + Lines(text[1..], "")
    else Lines(text[1..], current + [text[0]])
  }

  function DropReturn(line: string): string {
    if line != "" && line[|line| - 1] == '\r' then line[..|line| - 1] else line
  }

  function LogPrompt(logs: LogState, agent: AgentId, lines: seq<string>, now: Time): LogState {
    if lines == [] then logs
    else LogAppended(LogPrompt(logs, agent, lines[..|lines| - 1], now), agent, "User: " + lines[|lines| - 1], now)
  }

  function StartTaskStep(p: Pipe, client: ClientId, requestId: Option<string>, prompt: string,
                         agentId: Option<AgentId>, now: Time): Pipe {
    var agent := if agentId.Some? then agentId.value else DEFAULT_TASK;
    var logged := LogPrompt(LogAppended(p.core.logs, agent, "> Prompt: " + prompt, now), agent, Lines(prompt), now);
    var responder :=
      if p.core.responder.Some? && Accepts(p.core.responder.value)
      then Some(Sent(p.core.responder.value, StartTaskCommand(prompt, agentId, now)))
      else p.core.responder;
    Reply(Announce(p.(core := p.core.(logs := logged, responder := responder)), StartTaskPush(prompt)),
          client, requestId, CommandResult(None))
  }

  function ClientStep(p: Pipe, client: ClientId, requestId: Option<string>, request: ClientRequest, now: Time): Pipe {
    match request
    case GetMetrics => Reply(p, client, requestId, MetricsReply(p.core.metrics))
    case Ack(id) => AckStep(p, client, requestId, id)
    case Dismiss(id) => DismissStep(p, client, requestId, id)
    case Respond(id, decision, selected, text) =>
      RespondStep(p, client, requestId, id, decision, FromRespondRequest(decision, selected, text), now)
    case GetEventDetails(id) => DetailsStep(p, client, requestId, id, now)
    case GetEventLogs(id, offset, limit) => LogsStep(p, client, requestId, id, offset, limit)
    case StartTask(prompt, agentId) => StartTaskStep(p, client, requestId, prompt, agentId, now)
    case BridgeMessage => Reply(p, client, requestId, ErrorReply("unsupported"))
    case OtherMessage => Reply(p, client, requestId, ErrorReply("unsupported"))
  }

  function OutcomeStep(p: Pipe, outcome: AdapterOutcome, now: Time): Pipe {
    match outcome
    case Delivered(id, decision) => Settle(p, id, ResolutionOf(decision), now)
    case NotDelivered(id, reason) => Settle(p, id, Unresolved, now)
  }

  function EventsOf(entries: seq<QueueEntry>, events: Events): seq<Event> {
    if entries == [] then []
    else
      var last := entries[|entries| - 1].eventId;
      EventsOf(entries[..|entries| - 1], events) + (if last in events then [events[last]] else [])
  }

  ghost function SnapshotBody(core: Core): Body {
    var entries := OrderedSnapshot(core.entries);
    Snapshot(entries, EventsOf(entries, core.events))
  }

  /** One command, at the instant `now`; `id` is the id generated for an event it may create. */
  ghost function Step(core: Core, command: Command, now: Time, id: EventId): Pipe {
    var p := Pipe(core, []);
    match command
    case Tick => TickStep(p, now)
    case AdapterLine(agent, text) => LineStep(p, agent, text, now)
    case AdapterEvent(raw) => EventStep(p, raw, now, id)
    case FromClient(client, requestId, request) => ClientStep(p, client, requestId, request, now)
    case SendSnapshot(client) => Reply(p, client, None, SnapshotBody(core))
    case AdapterResponse(outcome) => OutcomeStep(p, outcome, now)
    case Connect(_) => p
    case Disconnect(_) => p
    case Shutdown => p
  }
}
