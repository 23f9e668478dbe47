/** What each command leaves of an entry and of the counters, field by field. */
module Marks {
  import opened Types
  import opened Classifier
  import opened Scoring
  import opened PriorityQueues
  import opened Tracker
  import opened LogStores
  import opened CoreMachine
  import opened Coherence
  import opened Clients
  import opened Delivery
  import opened Agreement
  import opened Conservation
  import opened Changes
  import Rankings

  // ---- entries -------------------------------------------------------------------------------------------

  predicate Open(ch: Channel) {
    !ch.closed && |ch.queue| < ch.capacity
  }

  /** How an open request stands right after a human answered it. */
  function Standing(core: Core, decision: Decision): Resolution {
    if core.responder.None? then (if decision == Approve then Approved else Denied)
    else if Open(core.responder.value) then PendingDelivery
    else Unresolved
  }

  /** What is left of the entry `e` of event `k`: acknowledging and reading details make a new entry seen, a
      dismissal makes any dismissed, an answer touches the resolution of an open request, its delivery that of a
      pending one, an event at most marks it superseded, and a tick at most escalates it. Scores follow. */
  ghost predicate Leaves(core: Core, command: Command, now: Time, k: EventId, f: QueueEntry)
    requires k in core.entries && k in core.events
  {
    var e, event := core.entries[k], core.events[k];
    match command
    case FromClient(_, _, Ack(id)) => f == if id == k && e.state == New then e.(state := Seen) else e
    case FromClient(_, _, Dismiss(id)) => f == if id == k then e.(state := Dismissed) else e
    case FromClient(_, _, GetEventDetails(id)) =>
      f == if id == k && e.state == New then e.(state := Seen, score := Score(e.(state := Seen), event, now)) else e
    case FromClient(_, _, Respond(id, decision, _, _)) =>
      if id == k && e.resolution == Some(Unresolved)
      then f == e.(resolution := Some(Standing(core, decision)), score := Score(f, event, now)) else f == e
    case AdapterResponse(outcome) =>
      if outcome.id == k && e.resolution == Some(PendingDelivery)
      then f == e.(resolution := Some(if !outcome.Delivered? then Unresolved
                                      else if outcome.decision == Approve then Approved else Denied),
                   score := Score(f, event, now))
      else f == e
    case AdapterEvent(_) =>
      f == e || (f == e.(superseded := true) && !(e.resolution.Some? && e.resolution.value in {PendingDelivery, Approved, Denied}))
    case Tick =>
      && f == e.(escalationLevel := f.escalationLevel, score := f.score)
      && (f != e ==> f.score == Score(f, event, now))
    case _ => f == e
  }

  lemma EntriesMarked(core: Core, command: Command, now: Time, newId: EventId, k: EventId)
    requires CoreOk(core) && newId !in core.events && k in core.entries && k in core.events
    ensures var q := Step(core, command, now, newId).core;
            k in q.entries && Leaves(core, command, now, k, q.entries[k])
  {
    hide CoreOk, Step, Score, Displaced, Malformed, MakeEvent, TickActions;
    StepEntry(core, command, now, newId, k);
    OwnId(core, k);
    var e, f := core.entries[k], Step(core, command, now, newId).core.entries[k];
    forall g: QueueEntry | g.state == f.state && g.resolution == f.resolution && g.escalationLevel == f.escalationLevel
      ensures Score(g, core.events[k], now) == Score(f, core.events[k], now)
    {
      Rankings.SameScore(g, f, core.events[k], now);
    }
  }

  lemma OwnId(core: Core, k: EventId)
    requires CoreOk(core) && k in core.entries
    ensures core.entries[k].eventId == k
  {
  }

  // ---- counters ------------------------------------------------------------------------------------------

  /** What each command counts. */
  ghost function Counted(core: Core, command: Command, now: Time): Metrics {
    var m := core.metrics;
    match command
    case Tick => m.(escalations := m.escalations + |TickActions(core.open, core.thresholds, now)|)
    case AdapterLine(_, _) => m.(rawLines := m.rawLines + 1)
    case AdapterEvent(raw) =>
      if IsBlank(raw.agentId) || IsBlank(raw.kind) || raw.agentSeq == 0 then
        m.(rawEvents := m.rawEvents + 1, droppedEvents := m.droppedEvents + 1)
      else
        m.(rawEvents := m.rawEvents + 1, rawLines := m.rawLines + |raw.logLines|,
           processedEvents := m.processedEvents + 1, surfacedSummaries := m.surfacedSummaries + 1,
           unclassifiedEvents := m.unclassifiedEvents +
             if Classify(raw.kind).matched == Fallback && raw.request.None? then 1 else 0)
    case FromClient(_, _, Ack(id)) => if id in core.entries then m.(acks := m.acks + 1) else m
    case FromClient(_, _, Dismiss(id)) => if id in core.entries then m.(dismissals := m.dismissals + 1) else m
    case FromClient(_, _, GetEventDetails(id)) =>
      if id in core.entries then m.(detailRefetches := m.detailRefetches + 1) else m
    case FromClient(_, _, GetEventLogs(_, _, _)) => m.(logPageRequests := m.logPageRequests + 1)
    case FromClient(_, _, Respond(id, _, _, _)) =>
      if id in core.entries && core.entries[id].resolution == Some(Unresolved) then m.(responses := m.responses + 1) else m
    case _ => m
  }

  lemma {:induction false} EscalationsCounted(p: Pipe, actions: seq<EscalationAction>, now: Time)
    ensures EscalateAll(p, actions, now).core.metrics ==
            p.core.metrics.(escalations := p.core.metrics.escalations + |actions|)
  {
    hide Rescored;
    if actions != [] {
      EscalationsCounted(p, actions[..|actions| - 1], now);
    }
  }

  lemma ResponsesCounted(p: Pipe, client: ClientId, requestId: Option<string>, id: EventId, decision: Decision,
                         response: RequestResponse, now: Time)
    ensures RespondStep(p, client, requestId, id, decision, response, now).core.metrics ==
              var m := p.core.metrics;
              if id in p.core.entries && p.core.entries[id].resolution == Some(Unresolved)
              then m.(responses := m.responses + 1) else m
  {
    hide PinnedAppended, ResponseText, CommandFor, Accepts, Settle, AcceptResponse;
    if id in p.core.entries {
      AcceptedOnly(p, client, id, decision, response, now);
      var accepted := AcceptResponse(p, client, id, decision, response, now);
      SettledOnly(accepted, id, ResolutionOf(decision), now);
      SettledOnly(accepted, id, Unresolved, now);
    }
  }

  lemma FallbackIsWork(kind: string)
    ensures Classify(kind).matched == Fallback ==> Classify(kind).category == Working
  {
    hide Find;
  }

  lemma EventsCounted(core: Core, raw: RawEvent, now: Time, newId: EventId)
    ensures EventStep(Pipe(core, []), raw, now, newId).core.metrics == Counted(core, AdapterEvent(raw), now)
  {
    hide MakeLogs, MakeEvent, MakeEntry, Observed, Displaced, Classify, IsBlank;
    FallbackIsWork(raw.kind);
    if !Malformed(raw) {
      var observed := Pipe(core, []).(core := Processed(core, raw, now, newId).(open := Observed(core.open, MakeEvent(core, raw, now, newId)).0));
      SupersedeAllCounts(observed, Displaced(core, MakeEvent(core, raw, now, newId)));
    }
  }

  lemma CountersMove(core: Core, command: Command, now: Time, newId: EventId)
    requires CoreOk(core)
    ensures Step(core, command, now, newId).core.metrics == Counted(core, command, now)
  {
    hide CoreOk, RespondStep, EventStep, TickActions, TickedTasks, EscalateAll, FromRespondRequest, LogAppended, LogPrompt, Lines,
      EventLogs, Rescored, StateOf, SnapshotBody, Classify, IsBlank, RescoreUpdates, ScorePushes;
    var p := Pipe(core, []);
    match command {
      case Tick =>
        var rescored := RescoreStep(p, now);
        EscalationsCounted(rescored.(core := rescored.core.(open := TickedTasks(core.open, core.thresholds, now))),
                           TickActions(core.open, core.thresholds, now), now);
      case AdapterEvent(raw) =>
        EventsCounted(core, raw, now, newId);
      case FromClient(client, requestId, Respond(id, decision, selected, text)) =>
        ResponsesCounted(p, client, requestId, id, decision, FromRespondRequest(decision, selected, text), now);
      case _ =>
    }
  }
}
