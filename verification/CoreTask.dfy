/** The core task itself: the object that owns the pipeline and executes one command at a time. Each
    handler is shown to do what the state machine of module CoreMachine says, and to send it. */
module CoreTasks {
  import opened Types
  import opened Scoring
  import opened Classifier
  import opened PriorityQueues
  import opened Tracker
  import opened LogStores
  import opened CoreMachine
  import opened Coherence
  import opened Clients
  import Delivery

  /** Immutable events by id. */
  class EventStore {
    var events: Events

    constructor ()
      ensures events == map[]
    {
      events := map[];
    }

    method Insert(event: Event)
      modifies this
      ensures events == old(events)[event.eventId := event]
    {
      events := events[event.eventId := event];
    }
  }

  class MetricsCell {
    var m: Metrics

    constructor ()
      ensures m == NO_METRICS
    {
      m := NO_METRICS;
    }
  }

  /** Gives raw events their identity, number, class, log range and first score. */
  class EventProcessor {
    var nextSeq: nat

    constructor ()
      ensures nextSeq == 0
    {
      nextSeq := 0;
    }

    method ProcessLine(agent: AgentId, text: string, now: Time, logs: LogStore, metrics: MetricsCell)
      requires logs.Valid()
      modifies logs`agents, logs.agents.Values, metrics
      ensures logs.Valid() && fresh(logs.agents.Values - old(logs.agents.Values))
      ensures logs.View() == LogAppended(old(logs.View()), agent, text, now)
      ensures metrics.m == old(metrics.m).(rawLines := old(metrics.m).rawLines + 1)
    {
      var _ := logs.Append(agent, text, now);
      metrics.m := metrics.m.(rawLines := metrics.m.rawLines + 1);
    }

    /** Appends the lines that come with an event and returns the range they got. */
    method AppendEventLines(raw: RawEvent, now: Time, logs: LogStore, metrics: MetricsCell) returns (range: LogRange)
      requires logs.Valid()
      modifies logs`agents, logs.agents.Values, metrics
      ensures logs.Valid() && fresh(logs.agents.Values - old(logs.agents.Values))
      ensures logs.View() == WithLines(old(logs.View()), raw, now)
      ensures range == LogRange(NextOffset(old(logs.View()), raw.agentId), NextOffset(logs.View(), raw.agentId), false)
      ensures metrics.m == old(metrics.m).(rawLines := old(metrics.m).rawLines + |raw.logLines|)
    {
      hide LogAppendedAll, LogStore.View, NextOffset;
      var start := logs.NextOffsetOf(raw.agentId);
      if raw.logLines != [] {
        logs.AppendLines(raw.agentId, raw.logLines, now);
        metrics.m := metrics.m.(rawLines := metrics.m.rawLines + |raw.logLines|);
      }
      var end := logs.NextOffsetOf(raw.agentId);
      range := LogRange(start, end, false);
    }

    method ClassifyRaw(raw: RawEvent, metrics: MetricsCell) returns (class_: Classification, request: Option<string>)
      modifies metrics
      ensures (class_, request) == FinalClass(raw)
      ensures metrics.m == old(metrics.m).(unclassifiedEvents := old(metrics.m).unclassifiedEvents
                                             + (if class_.matched == Fallback && request.None? then 1 else 0))
    {
      class_, request := Classify(raw.kind), raw.request;
      if request.Some? && class_.category != Request {
        if class_.category == Completed {
          request := None;
        } else {
          class_ := class_.(category := Request, severity := Critical);
        }
      }
      if class_.matched == Fallback && request.None? {
        metrics.m := metrics.m.(unclassifiedEvents := metrics.m.unclassifiedEvents + 1);
      }
    }

    /** Pins the lines of attention events; remembers the agent of the others. */
    method PinOrRegister(id: EventId, agent: AgentId, category: Category, range: LogRange, logs: LogStore)
      returns (final: LogRange)
      requires logs.Valid() && !range.pinned
      modifies logs`eventAgents, logs`pinnedWindows
      ensures logs.View() == if NeedsPin(category) then Pinned(old(logs.View()), id, agent, range)
                             else Registered(old(logs.View()), id, agent)
      ensures final == range.(pinned := NeedsPin(category))
    {
      hide LogStore.View;
      if category == Request || category == Error {
        logs.Pin(id, agent, range);
        final := range.(pinned := true);
      } else {
        logs.RegisterEvent(id, agent);
        final := range;
      }
    }

    /** Stores the event, queues its entry with the score it has now, and counts both. */
    method StoreAndQueue(event: Event, now: Time, store: EventStore, queue: PriorityQueue, metrics: MetricsCell)
      returns (entry: QueueEntry)
      modifies store, queue, metrics
      ensures store.events == old(store.events)[event.eventId := event]
      ensures entry == MakeEntry(event, now) && queue.entries == old(queue.entries)[event.eventId := entry]
      ensures metrics.m == old(metrics.m).(processedEvents := old(metrics.m).processedEvents + 1,
                                           surfacedSummaries := old(metrics.m).surfacedSummaries + 1)
    {
      hide Score;
      store.Insert(event);
      var initial := NewEntry(event.eventId, event.category, event.seqNo, 0);
      entry := NewEntry(event.eventId, event.category, event.seqNo, Score(initial, event, now));
      queue.Insert(entry);
      metrics.m := metrics.m.(processedEvents := metrics.m.processedEvents + 1,
                              surfacedSummaries := metrics.m.surfacedSummaries + 1);
    }

    /** Classifies, numbers and logs a well-formed event. */
    method MakeAndLog(raw: RawEvent, now: Time, id: EventId, logs: LogStore, metrics: MetricsCell, ghost core: Core)
      returns (event: Event)
      requires logs.Valid() && core.nextSeq == nextSeq && core.logs == logs.View() && metrics.m == CountRaw(core.metrics)
      modifies this, logs, logs.agents.Values, metrics
      ensures logs.Valid() && fresh(logs.agents.Values - old(logs.agents.Values))
      ensures event == MakeEvent(core, raw, now, id) && event.eventId == id && nextSeq == core.nextSeq + 1
      ensures logs.View() == MakeLogs(core, raw, now, id)
      ensures metrics.m == MakeMetrics(core, raw).(processedEvents := core.metrics.processedEvents,
                                                   surfacedSummaries := core.metrics.surfacedSummaries)
    {
      hide LogStore.View, WithLines, NextOffset, Pinned, Registered, FinalClass;
      var range := AppendEventLines(raw, now, logs, metrics);
      var class_, request := ClassifyRaw(raw, metrics);
      nextSeq := nextSeq + 1;
      range := PinOrRegister(id, raw.agentId, class_.category, range, logs);
      event := Event(id, nextSeq, raw.agentSeq, raw.agentId, raw.taskId, now, class_.category, class_.severity,
                     raw.kind, raw.operation, raw.message, range, request);
    }

    method ProcessRawEvent(raw: RawEvent, now: Time, id: EventId, store: EventStore, queue: PriorityQueue,
                           logs: LogStore, metrics: MetricsCell, ghost core: Core)
      returns (r: Result<(Event, QueueEntry), string>)
      requires logs.Valid()
      requires core == core.(nextSeq := nextSeq, events := store.events, entries := queue.entries,
                             logs := logs.View(), metrics := metrics.m)
      modifies this, store, queue, logs, logs.agents.Values, metrics
      ensures logs.Valid() && fresh(logs.agents.Values - old(logs.agents.Values))
      ensures r.Err? <==> Malformed(raw)
      ensures Malformed(raw) ==>
                && nextSeq == old(nextSeq) && store.events == old(store.events) && queue.entries == old(queue.entries)
                && logs.View() == old(logs.View())
                && metrics.m == CountRaw(old(metrics.m)).(droppedEvents := old(metrics.m).droppedEvents + 1)
      ensures !Malformed(raw) ==>
                && r == Ok((MakeEvent(core, raw, now, id), MakeEntry(MakeEvent(core, raw, now, id), now)))
                && core.(nextSeq := nextSeq, events := store.events, entries := queue.entries,
                         logs := logs.View(), metrics := metrics.m) == Processed(core, raw, now, id)
    {
      hide LogStore.View, MakeEvent, MakeEntry, MakeLogs, MakeMetrics, IsBlank;
      metrics.m := metrics.m.(rawEvents := metrics.m.rawEvents + 1);
      if IsBlank(raw.agentId) || IsBlank(raw.kind) || raw.agentSeq == 0 {
        metrics.m := metrics.m.(droppedEvents := metrics.m.droppedEvents + 1);
        return Err("malformed event");
      }
      var event := MakeAndLog(raw, now, id, logs, metrics, core);
      var entry := StoreAndQueue(event, now, store, queue, metrics);
      MetricsSum(core, raw);
      r := Ok((event, entry));
    }

    lemma MetricsSum(core: Core, raw: RawEvent)
      ensures MakeMetrics(core, raw).processedEvents == core.metrics.processedEvents + 1
      ensures MakeMetrics(core, raw).surfacedSummaries == core.metrics.surfacedSummaries + 1
    {
    }
  }

  /** What a sink says about one message. */
  datatype SendResult = Taken | ChannelFull | Closed | IoError

  class CoreTask {
    const processor: EventProcessor
    const eventStore: EventStore
    const queue: PriorityQueue
    const logStore: LogStore
    const tracker: TaskTracker
    const metrics: MetricsCell
    var sinks: Links
    var responder: Option<Channel>

    /** The messages sent during the current step, and the links when it began. */
    ghost var sent: seq<Outgoing>
    ghost var began: Links

    ghost function Abs(): Core
      reads `responder, processor, eventStore, queue, logStore, tracker, metrics, logStore.agents.Values
    {
      Core(processor.nextSeq, eventStore.events, queue.entries, tracker.openTasks, tracker.thresholds,
           logStore.View(), metrics.m, responder)
    }

    ghost function P(): Pipe
      reads `responder, `sent, processor, eventStore, queue, logStore, tracker, metrics, logStore.agents.Values
    {
      Pipe(Abs(), sent)
    }

    /** In order, and everything sent so far in this step has been delivered. */
    ghost predicate Ready()
      reads this, queue, logStore
    {
      Ordered() && Deliver(began, sent, sinks)
    }

    ghost predicate Ordered()
      reads this, queue, logStore
    {
      logStore.Valid() && WellKeyed(queue.entries)
    }

    constructor (config: LogConfig, thresholds: ThresholdTable, responder: Option<Channel>)
      ensures Ready() && sinks == map[] && sent == []
      ensures Abs() == Fresh0(config, thresholds, responder) && CoreOk(Abs())
    {
      processor := new EventProcessor();
      eventStore := new EventStore();
      queue := new PriorityQueue();
      logStore := new LogStore(config);
      tracker := new TaskTracker(thresholds);
      metrics := new MetricsCell();
      sinks := map[];
      this.responder := responder;
      sent, began := [], map[];
      new;
      DeliverNothing(map[]);
    }

    // ---- sending ------------------------------------------------------------------------------

    /** Offers a message to one client's sink; a sink that is full or closed is dropped. */
    method Offer(client: ClientId, body: Body)
      modifies this`sinks
      ensures sinks.Keys <= old(sinks).Keys && old(sinks).Keys <= sinks.Keys + {client}
      ensures forall c :: c in sinks ==> if c == client then Took(old(sinks)[c], body, sinks[c]) else sinks[c] == old(sinks)[c]
    {
      if client in sinks {
        var r: SendResult := *;
        match r
        case Taken => sinks := sinks[client := sinks[client].(received := sinks[client].received + [body])];
        case ChannelFull => sinks := sinks - {client};
        case Closed => sinks := sinks - {client};
        case IoError => sinks := sinks[client := sinks[client].(lossy := true)];
      }
    }

    method SendTo(client: ClientId, requestId: Option<string>, body: Body)
      requires Ready()
      modifies this`sinks, this`sent
      ensures Ready() && sent == old(sent) + [ToClient(client, Message(requestId, body))]
    {
      hide LogStore.View, Deliver;
      Offer(client, body);
      DeliverMore(began, sent, old(sinks), ToClient(client, Message(requestId, body)), sinks);
      sent := sent + [ToClient(client, Message(requestId, body))];
    }

    method Broadcast(body: Body)
      requires Ready()
      modifies this`sinks, this`sent
      ensures Ready() && sent == old(sent) + [ToAll(body)]
    {
      hide LogStore.View, Deliver;
      var todo := sinks.Keys;
      while todo != {}
        invariant sinks.Keys <= old(sinks).Keys && todo <= old(sinks).Keys && sent == old(sent)
        invariant forall c :: c in sinks ==>
                    if c in todo then sinks[c] == old(sinks)[c] else Took(old(sinks)[c], body, sinks[c])
        decreases todo
      {
        var c :| c in todo;
        todo := todo - {c};
        Offer(c, body);
      }
      DeliverMore(began, sent, old(sinks), ToAll(body), sinks);
      sent := sent + [ToAll(body)];
    }

    /** Forwards a response to the other clients, whatever their sinks answer. */
    method Forward(client: ClientId, body: Body)
      requires Ready() && body.RespondForward?
      modifies this`sinks, this`sent
      ensures Ready() && sent == old(sent) + [ToOthers(client, body)]
    {
      hide LogStore.View, Deliver;
      var todo := sinks.Keys - {client};
      while todo != {}
        invariant sinks.Keys == old(sinks).Keys && todo <= old(sinks).Keys - {client} && sent == old(sent)
        invariant forall c :: c in sinks ==>
                    if c in todo || c == client then sinks[c] == old(sinks)[c] else TookForward(old(sinks)[c], body, sinks[c])
        decreases todo
      {
        var c :| c in todo;
        todo := todo - {c};
        var r: SendResult := *;
        if r.Taken? {
          sinks := sinks[c := sinks[c].(received := sinks[c].received + [body])];
        }
      }
      DeliverMore(began, sent, old(sinks), ToOthers(client, body), sinks);
      sent := sent + [ToOthers(client, body)];
    }

    // ---- pieces -------------------------------------------------------------------------------

    method AnnounceScore(id: EventId, now: Time)
      requires Ready()
      modifies this`sinks, this`sent, queue
      ensures Ready() && P() == UpdateScore(old(P()), id, now)
    {
      hide LogStore.View, Deliver, Rescored;
      var update := queue.UpdateEntryScore(id, eventStore.events, now);
      if update.Some? {
        Broadcast(ScorePush(update.value));
      }
    }

    method SettleRequest(id: EventId, delivered: Option<Decision>, now: Time)
      requires Ready()
      modifies this`sinks, this`sent, queue
      ensures Ready()
      ensures P() == Settle(old(P()), id, if delivered.Some? then ResolutionOf(delivered.value) else Unresolved, now)
    {
      hide LogStore.View, Deliver, UpdateScore;
      var r;
      if delivered.Some? {
        r := queue.MarkDelivered(id, delivered.value);
      } else {
        r := queue.MarkDeliveryFailed(id);
      }
      if r.Ok? {
        AnnounceScore(id, now);
        Broadcast(StatePush(r.value));
      }
    }

    // ---- handlers -----------------------------------------------------------------------------

    method HandleTick(now: Time)
      requires Ready() && CoreOk(Abs())
      modifies this`sinks, this`sent, queue, tracker, metrics
      ensures Ready() && P() == TickStep(old(P()), now)
    {
      hide LogStore.View, Deliver, CoreOk, RescoredEntries, RescoreUpdates, TickActions, TickedTasks, EscalateOne;
      ghost var start := P();
      var updates := queue.Rescore(eventStore.events, now);
      for i := 0 to |updates|
        invariant Ready() && Abs() == RescoreStep(start, now).core
        invariant sent == old(sent) + ScorePushes(updates[..i])
        modifies this`sinks, this`sent
      {
        Broadcast(ScorePush(updates[i]));
        assert ScorePushes(updates[..i + 1]) == ScorePushes(updates[..i]) + [ToAll(ScorePush(updates[i]))];
      }
      assert updates[..|updates|] == updates;
      var actions := tracker.Tick(now);
      ghost var ticked := P();
      for i := 0 to |actions|
        invariant Ready() && P() == EscalateAll(ticked, actions[..i], now)
        modifies this`sinks, this`sent, queue, metrics
      {
        assert actions[..i + 1][..i] == actions[..i];
        EscalateEntry(actions[i], now);
      }
      assert actions[..|actions|] == actions;
    }

    method EscalateEntry(action: EscalationAction, now: Time)
      requires Ready()
      modifies this`sinks, this`sent, queue, metrics
      ensures Ready() && P() == EscalateOne(old(P()), action, now)
    {
      hide LogStore.View, Deliver, UpdateScore;
      metrics.m := metrics.m.(escalations := metrics.m.escalations + 1);
      var r := queue.Escalate(action.eventId, action.level);
      if r.Ok? && r.value.Some? {
        AnnounceScore(action.eventId, now);
      }
    }

    method HandleLine(agent: AgentId, text: string, now: Time)
      requires Ready()
      modifies logStore`agents, logStore.agents.Values, metrics
      ensures Ready() && P() == LineStep(old(P()), agent, text, now)
      ensures fresh(logStore.agents.Values - old(logStore.agents.Values))
    {
      processor.ProcessLine(agent, text, now, logStore, metrics);
    }

    method HandleEvent(raw: RawEvent, now: Time, id: EventId)
      requires Ready() && CoreOk(Abs()) && id !in eventStore.events
      modifies this`sinks, this`sent, processor, eventStore, queue, logStore, logStore.agents.Values, tracker, metrics
      ensures Ready() && P() == EventStep(old(P()), raw, now, id)
      ensures fresh(logStore.agents.Values - old(logStore.agents.Values))
    {
      hide Abs, Ready, CoreOk, Malformed, Processed, MakeEvent, MakeEntry, SupersedeOne, Observed;
      var event, ids := TakeEvent(raw, now, id);
      if event.Some? {
        ghost var observed := P();
        for i := 0 to |ids|
          invariant Ready() && P() == SupersedeAll(observed, ids[..i])
          modifies this`sinks, this`sent, queue
        {
          assert ids[..i + 1][..i] == ids[..i];
          SupersedeEntry(ids[i]);
        }
        assert ids[..|ids|] == ids;
        Broadcast(EventPush(event.value.0, event.value.1));
      }
    }

    /** Processes a raw event and shows it to the tracker; gives the event with its entry, and the events it
        displaces. */
    method TakeEvent(raw: RawEvent, now: Time, id: EventId)
      returns (taken: Option<(Event, QueueEntry)>, displaced: seq<EventId>)
      requires Ready() && CoreOk(Abs()) && id !in eventStore.events
      modifies processor, eventStore, queue, logStore, logStore.agents.Values, tracker, metrics
      ensures Ready() && fresh(logStore.agents.Values - old(logStore.agents.Values))
      ensures Malformed(raw) ==> taken.None? && P() == EventStep(old(P()), raw, now, id)
      ensures !Malformed(raw) ==>
                var event := MakeEvent(old(Abs()), raw, now, id);
                && taken == Some((event, MakeEntry(event, now)))
                && displaced == Displaced(old(Abs()), event)
                && P() == old(P()).(core := Processed(old(Abs()), raw, now, id).(open := Observed(old(Abs()).open, event).0))
    {
      hide LogStore.View, Deliver, CoreOk, Malformed, MakeEvent, MakeEntry, MakeLogs, MakeMetrics, Observed;
      ghost var start := P();
      var r := processor.ProcessRawEvent(raw, now, id, eventStore, queue, logStore, metrics, start.core);
      taken, displaced := None, [];
      if r.Ok? {
        assert WellKeyed(queue.entries) by { StillWellKeyed(start.core, raw, now, id); }
        var removed := tracker.ObserveEvent(r.value.0);
        taken := Some(r.value);
        displaced := if removed.Some? then removed.value else [];
      }
    }

    lemma StillWellKeyed(core: Core, raw: RawEvent, now: Time, id: EventId)
      requires CoreOk(core) && id !in core.events
      ensures WellKeyed(Processed(core, raw, now, id).entries)
    {
      ProcessedOk(core, raw, now, id);
      CoreOkIsWellKeyed(Processed(core, raw, now, id));
    }

    method SupersedeEntry(id: EventId)
      requires Ready()
      modifies this`sinks, this`sent, queue
      ensures Ready() && P() == SupersedeOne(old(P()), id)
    {
      hide LogStore.View, Deliver;
      var r := queue.Supersede(id);
      if r.Ok? && r.value.Some? {
        Broadcast(StatePush(r.value.value));
      }
    }

    method HandleAck(client: ClientId, requestId: Option<string>, id: EventId)
      requires Ready()
      modifies this`sinks, this`sent, queue, metrics
      ensures Ready() && P() == AckStep(old(P()), client, requestId, id)
    {
      hide LogStore.View, Deliver;
      var r := queue.Ack(id);
      match r
      case Ok(update) =>
        metrics.m := metrics.m.(acks := metrics.m.acks + 1);
        if update.Some? {
          Broadcast(StatePush(update.value));
        }
        SendTo(client, requestId, CommandResult(None));
      case Err(error) => SendTo(client, requestId, CommandResult(Some(error)));
    }

    method HandleDismiss(client: ClientId, requestId: Option<string>, id: EventId)
      requires Ready()
      modifies this`sinks, this`sent, queue, metrics
      ensures Ready() && P() == DismissStep(old(P()), client, requestId, id)
    {
      hide LogStore.View, Deliver;
      var r := queue.Dismiss(id);
      match r
      case Ok(update) =>
        metrics.m := metrics.m.(dismissals := metrics.m.dismissals + 1);
        if update.Some? {
          Broadcast(StatePush(update.value));
        }
        SendTo(client, requestId, CommandResult(None));
      case Err(error) => SendTo(client, requestId, CommandResult(Some(error)));
    }

    /** Offers a command to the adapter without waiting. */
    method TrySend(command: AdapterCommand) returns (ok: bool)
      requires responder.Some?
      modifies this`responder
      ensures ok == Accepts(old(responder).value)
      ensures responder == if ok then Some(Sent(old(responder).value, command)) else old(responder)
    {
      var ch := responder.value;
      ok := !ch.closed && |ch.queue| < ch.capacity;
      if ok {
        responder := Some(ch.(queue := ch.queue + [command]));
      }
    }

    method HandleRespond(client: ClientId, requestId: Option<string>, id: EventId, decision: Decision,
                         selected: Option<seq<string>>, text: Option<string>, now: Time)
      requires Ready()
      modifies this, queue, metrics, logStore`pinnedWindows
      ensures Ready() && began == old(began)
      ensures P() == RespondStep(old(P()), client, requestId, id, decision, FromRespondRequest(decision, selected, text), now)
    {
      hide Abs, Ready, AcceptResponse, FromRespondRequest, Settle, CommandFor, PriorityQueues.RespondError, Accepts, Sent;
      var response := FromRespondRequest(decision, selected, text);
      var command := CommandOf(id, decision, response, now);
      var error := AcceptNow(client, id, decision, response, now);
      if error.Some? {
        SendTo(client, requestId, CommandResult(error));
      } else if responder.Some? {
        ResponderField();
        AcceptKeepsResponder(old(P()), client, id, decision, response, now);
        var ok := OfferCommand(command);
        if ok {
          SendTo(client, requestId, CommandResult(None));
        } else {
          SettleRequest(id, None, now);
          SendTo(client, requestId, CommandResult(Some(DeliveryFailed)));
        }
      } else {
        ResponderField();
        AcceptKeepsResponder(old(P()), client, id, decision, response, now);
        SettleRequest(id, Some(decision), now);
        SendTo(client, requestId, CommandResult(None));
      }
    }

    lemma ResponderField()
      ensures Abs().responder == responder
    {
    }

    lemma AcceptKeepsResponder(p: Pipe, client: ClientId, id: EventId, decision: Decision, response: RequestResponse, now: Time)
      ensures id in p.core.entries ==>
                AcceptResponse(p, client, id, decision, response, now).core.responder == p.core.responder
    {
    }

    /** The adapter command for a response, addressed by what is known about the event. */
    method CommandOf(id: EventId, decision: Decision, response: RequestResponse, now: Time) returns (command: AdapterCommand)
      ensures command == CommandFor(Abs(), id, decision, response, now)
    {
      var taskId, requestSeq := DEFAULT_TASK, None;
      if id in eventStore.events {
        var event := eventStore.events[id];
        taskId := if event.taskId.Some? then event.taskId.value else DEFAULT_TASK;
        requestSeq := Some(event.agentSeq);
      }
      command := RespondCommand(id, taskId, decision, requestSeq, response, now);
    }

    /** Takes the response, unless the request does not wait for one: re-scores, announces, forwards
        and records it. */
    method AcceptNow(client: ClientId, id: EventId, decision: Decision, response: RequestResponse, now: Time)
      returns (error: Option<CommandError>)
      requires Ready()
      modifies this`sinks, this`sent, queue, metrics, logStore`pinnedWindows
      ensures Ready()
      ensures id !in old(Abs()).entries ==> error == Some(NoSuchEvent)
      ensures id in old(Abs()).entries ==> error == PriorityQueues.RespondError(old(Abs()).entries[id])
      ensures error.Some? ==> P() == old(P())
      ensures error.None? ==> P() == AcceptResponse(old(P()), client, id, decision, response, now)
    {
      hide Abs, Ready, UpdateScore, ResponseText, PinnedAppended;
      var r := TakeResponse(id);
      match r
      case Err(e) => error := Some(e);
      case Ok(update) =>
        error := None;
        ScoreKeepsLogs(P(), id, now);
        AnnounceScore(id, now);
        if responder.Some? {
          Broadcast(StatePush(update));
        }
        Forward(client, RespondForward(id, decision));
        RecordResponse(id, response, now);
    }

    lemma ScoreKeepsLogs(p: Pipe, id: EventId, now: Time)
      ensures UpdateScore(p, id, now).core.logs == p.core.logs
    {
    }

    /** Moves a request to pending delivery and counts the response. */
    method TakeResponse(id: EventId) returns (r: Result<StateUpdate, CommandError>)
      requires Ready()
      modifies queue, metrics
      ensures Ready() && responder == Abs().responder
      ensures id !in old(Abs()).entries ==> r == Err(NoSuchEvent)
      ensures id in old(Abs()).entries ==>
                match r
                case Err(error) => PriorityQueues.RespondError(old(Abs()).entries[id]) == Some(error)
                case Ok(update) => PriorityQueues.RespondError(old(Abs()).entries[id]).None?
      ensures r.Err? ==> P() == old(P())
      ensures r.Ok? ==>
                && id in old(Abs()).entries
                && var e := old(Abs()).entries[id].(resolution := Some(PendingDelivery));
                   && r.value == StateOf(e)
                   && P() == old(P()).(core := old(Abs()).(
                        entries := old(Abs()).entries[id := e],
                        metrics := old(Abs()).metrics.(responses := old(Abs()).metrics.responses + 1)))
    {
      hide LogStore.View, Deliver;
      r := queue.RespondRequest(id);
      if r.Ok? {
        metrics.m := metrics.m.(responses := metrics.m.responses + 1);
      }
    }

    /** Adds the response to the pinned lines of the request. */
    method RecordResponse(id: EventId, response: RequestResponse, now: Time)
      requires Ready()
      modifies logStore`pinnedWindows
      ensures Ready()
      ensures P() == old(P()).(core := old(Abs()).(logs := PinnedAppended(old(Abs()).logs, id, ResponseText(response), now)))
    {
      hide LogStore.View, Deliver, ResponseText, PinnedAppended;
      logStore.AppendToPinned(id, ResponseText(response), now);
    }

    method HandleDetails(client: ClientId, requestId: Option<string>, id: EventId, now: Time)
      requires Ready()
      modifies this`sinks, this`sent, queue, metrics
      ensures Ready() && P() == DetailsStep(old(P()), client, requestId, id, now)
    {
      hide LogStore.View, Deliver, UpdateScore;
      MarkSeen(id, now);
      if id in eventStore.events && id in queue.entries {
        SendTo(client, requestId, EventDetails(eventStore.events[id], queue.entries[id]));
      } else {
        SendTo(client, requestId, ErrorReply("no_such_event"));
      }
    }

    /** Opening the details of an event acknowledges it. */
    method MarkSeen(id: EventId, now: Time)
      requires Ready()
      modifies this`sinks, this`sent, queue, metrics
      ensures Ready() && P() == SeenStep(old(P()), id, now)
    {
      hide LogStore.View, Deliver, UpdateScore;
      var r := queue.Ack(id);
      if r.Ok? && r.value.Some? {
        metrics.m := metrics.m.(detailRefetches := metrics.m.detailRefetches + 1);
        Broadcast(StatePush(r.value.value));
        AnnounceScore(id, now);
      } else if id in queue.entries {
        metrics.m := metrics.m.(detailRefetches := metrics.m.detailRefetches + 1);
      }
    }

    method HandleLogs(client: ClientId, requestId: Option<string>, id: EventId, offset: int, limit: nat)
      requires Ready()
      modifies this`sinks, this`sent, metrics
      ensures Ready() && P() == LogsStep(old(P()), client, requestId, id, offset, limit)
    {
      hide LogStore.View, Deliver, EventLogs;
      metrics.m := metrics.m.(logPageRequests := metrics.m.logPageRequests + 1);
      var logs := logStore.GetEventLogs(id, offset, limit);
      if logs.Some? {
        SendTo(client, requestId, EventLogsReply(id, logs.value));
      } else {
        SendTo(client, requestId, CommandResult(Some(NoSuchEvent)));
      }
    }

    method LogPromptLines(agent: AgentId, lines: seq<string>, now: Time)
      requires logStore.Valid()
      modifies logStore`agents, logStore.agents.Values
      ensures logStore.Valid() && fresh(logStore.agents.Values - old(logStore.agents.Values))
      ensures logStore.View() == LogPrompt(old(logStore.View()), agent, lines, now)
    {
      hide LogStore.View, LogAppended;
      for i := 0 to |lines|
        invariant logStore.Valid() && logStore.View() == LogPrompt(old(logStore.View()), agent, lines[..i], now)
        invariant fresh(logStore.agents.Values - old(logStore.agents.Values))
      {
        assert lines[..i + 1][..i] == lines[..i];
        var _ := logStore.Append(agent, "User: " + lines[i], now);
      }
      assert lines[..|lines|] == lines;
    }

    method HandleStartTask(client: ClientId, requestId: Option<string>, prompt: string, agentId: Option<AgentId>, now: Time)
      requires Ready()
      modifies this, logStore, logStore.agents.Values
      ensures Ready() && began == old(began)
      ensures P() == StartTaskStep(old(P()), client, requestId, prompt, agentId, now)
      ensures fresh(logStore.agents.Values - old(logStore.agents.Values))
    {
      hide Abs, Ready, LogAppended, LogPrompt, Lines, Accepts;
      LogTask(if agentId.Some? then agentId.value else DEFAULT_TASK, prompt, now);
      var _ := OfferCommand(StartTaskCommand(prompt, agentId, now));
      Broadcast(StartTaskPush(prompt));
      SendTo(client, requestId, CommandResult(None));
    }

    method LogTask(agent: AgentId, prompt: string, now: Time)
      requires Ready()
      modifies logStore`agents, logStore.agents.Values
      ensures Ready() && fresh(logStore.agents.Values - old(logStore.agents.Values))
      ensures P() == old(P()).(core := old(Abs()).(
                logs := LogPrompt(LogAppended(old(Abs()).logs, agent, "> Prompt: " + prompt, now), agent, Lines(prompt), now)))
    {
      hide LogStore.View, Deliver, LogAppended, LogPrompt, Lines;
      var _ := logStore.Append(agent, "> Prompt: " + prompt, now);
      LogPromptLines(agent, Lines(prompt), now);
    }

    /** Offers a command to the adapter, if there is one. */
    method OfferCommand(command: AdapterCommand) returns (ok: bool)
      requires Ready()
      modifies this`responder
      ensures Ready()
      ensures var ch := old(Abs()).responder;
              && ok == (ch.Some? && Accepts(ch.value))
              && P() == old(P()).(core := old(Abs()).(
                responder := if ch.Some? && Accepts(ch.value) then Some(Sent(ch.value, command)) else ch))
    {
      hide LogStore.View, Deliver, Accepts, Sent;
      ok := false;
      if responder.Some? {
        ok := TrySend(command);
      }
    }

    method HandleClientMessage(client: ClientId, requestId: Option<string>, request: ClientRequest, now: Time)
      requires Ready()
      modifies this, queue, metrics, logStore, logStore.agents.Values
      ensures Ready() && P() == ClientStep(old(P()), client, requestId, request, now)
      ensures began == old(began) && fresh(logStore.agents.Values - old(logStore.agents.Values))
    {
      hide LogStore.View, Deliver, Ready, AckStep, DismissStep, RespondStep, DetailsStep, LogsStep, StartTaskStep, FromRespondRequest;
      match request
      case GetMetrics => SendTo(client, requestId, MetricsReply(metrics.m));
      case Ack(id) => HandleAck(client, requestId, id);
      case Dismiss(id) => HandleDismiss(client, requestId, id);
      case Respond(id, decision, selected, text) => HandleRespond(client, requestId, id, decision, selected, text, now);
      case GetEventDetails(id) => HandleDetails(client, requestId, id, now);
      case GetEventLogs(id, offset, limit) => HandleLogs(client, requestId, id, offset, limit);
      case StartTask(prompt, agentId) => HandleStartTask(client, requestId, prompt, agentId, now);
      case BridgeMessage => SendTo(client, requestId, ErrorReply("unsupported"));
      case OtherMessage => SendTo(client, requestId, ErrorReply("unsupported"));
    }

    method HandleSnapshot(client: ClientId)
      requires Ready()
      modifies this`sinks, this`sent
      ensures Ready() && P() == Reply(old(P()), client, None, SnapshotBody(old(Abs())))
    {
      hide LogStore.View, Deliver, OrderedSnapshot;
      var entries := queue.OrderedSnapshotNow();
      var events := [];
      for i := 0 to |entries|
        invariant events == EventsOf(entries[..i], eventStore.events)
      {
        assert entries[..i + 1][..i] == entries[..i];
        if entries[i].eventId in eventStore.events {
          events := events + [eventStore.events[entries[i].eventId]];
        }
      }
      assert entries[..|entries|] == entries;
      SendTo(client, None, Snapshot(entries, events));
    }

    /** One command from the inbox. It does what the state machine says, sends what it says to whoever
        is connected, and so keeps the system's invariant: coherent replicas included. */
    method Step(command: Command, now: Time, id: EventId, ghost clock: Time)
      requires Ordered() && SystemOk(System(Abs(), sinks, clock)) && clock <= now && id !in eventStore.events
      modifies this, processor, eventStore, queue, logStore, logStore.agents.Values, tracker, metrics
      ensures Ordered() && fresh(logStore.agents.Values - old(logStore.agents.Values))
      ensures Next(System(old(Abs()), old(sinks), clock), Input(command, now, id), System(Abs(), sinks, now))
      ensures SystemOk(System(Abs(), sinks, now))
    {
      hide LogStore.View, Deliver, CoreOk, CoreMachine.Step, Coherent;
      ghost var start, input := System(Abs(), sinks, clock), Input(command, now, id);
      assert CoreOk(Abs());
      Begin();
      Execute(command, now, id);
      ghost var delivered := sinks;
      Reconnect(command);
      StepDelivered(start, input, delivered, System(Abs(), sinks, now));
      NextOk(start, input, System(Abs(), sinks, now));
    }

    /** Everything a command does, except to the set of connections. */
    method Execute(command: Command, now: Time, id: EventId)
      requires Ready() && CoreOk(Abs()) && id !in eventStore.events && sent == []
      modifies this, processor, eventStore, queue, logStore, logStore.agents.Values, tracker, metrics
      ensures Ready() && began == old(began) && fresh(logStore.agents.Values - old(logStore.agents.Values))
      ensures P() == CoreMachine.Step(old(Abs()), command, now, id)
    {
      hide LogStore.View, Deliver, CoreOk, TickStep, EventStep, LineStep, ClientStep, OutcomeStep, SnapshotBody, Ready;
      match command
      case Tick => HandleTick(now);
      case AdapterLine(agent, text) => HandleLine(agent, text, now);
      case AdapterEvent(raw) => HandleEvent(raw, now, id);
      case FromClient(client, requestId, request) => HandleClientMessage(client, requestId, request, now);
      case AdapterResponse(outcome) => HandleOutcome(outcome, now);
      case SendSnapshot(c) => HandleSnapshot(c);
      case Connect(_) =>
      case Disconnect(_) =>
      case Shutdown =>
    }

    /** What a command does to the set of connections. */
    method Reconnect(command: Command)
      modifies this`sinks
      ensures sinks == match command
                       case Connect(c) => old(sinks)[c := Link([], false, false)]
                       case Disconnect(c) => old(sinks) - {c}
                       case SendSnapshot(c) =>
                         if c in old(sinks) then old(sinks)[c := old(sinks)[c].(snapshotted := true)] else old(sinks)
                       case _ => old(sinks)
    {
      match command
      case Connect(c) => sinks := sinks[c := Link([], false, false)];
      case Disconnect(c) => sinks := sinks - {c};
      case SendSnapshot(c) =>
        if c in sinks {
          sinks := sinks[c := sinks[c].(snapshotted := true)];
        }
      case _ =>
    }

    lemma StepDelivered(start: System, input: Input, delivered: Links, end: System)
      requires start.clock <= input.now == end.clock && input.freshId !in start.core.events
      requires var p := CoreMachine.Step(start.core, input.command, input.now, input.freshId);
               end.core == p.core && Deliver(start.links, p.out, delivered)
      requires end.links == match input.command
                            case Connect(c) => delivered[c := Link([], false, false)]
                            case Disconnect(c) => delivered - {c}
                            case SendSnapshot(c) =>
                              if c in delivered then delivered[c := delivered[c].(snapshotted := true)] else delivered
                            case _ => delivered
      ensures Next(start, input, end)
    {
      hide TickStep, EventStep, LineStep, ClientStep, OutcomeStep, SnapshotBody;
    }

    /** Starts the record of a new step. */
    ghost method Begin()
      requires Ordered()
      modifies this`sent, this`began
      ensures Ready() && sent == [] && began == sinks
    {
      sent, began := [], sinks;
      DeliverNothing(sinks);
    }

    method HandleOutcome(outcome: AdapterOutcome, now: Time)
      requires Ready()
      modifies this`sinks, this`sent, queue
      ensures Ready() && P() == OutcomeStep(old(P()), outcome, now)
    {
      match outcome
      case Delivered(id, decision) => SettleRequest(id, Some(decision), now);
      case NotDelivered(id, reason) => SettleRequest(id, None, now);
    }
  }
}
