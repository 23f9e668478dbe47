/** What an arriving event becomes, and what every client request is answered with. */
module Arrivals {
  import opened Types
  import opened Classifier
  import opened Scoring
  import opened PriorityQueues
  import opened Tracker
  import opened LogStores
  import opened CoreMachine
  import opened Coherence
  import opened Clients
  import opened Delivery
  import opened Agreement

  // ---- events ----------------------------------------------------------------------------------------

  /** The class of an event: a structured request makes anything but a completion a critical request, and a
      completion drops it; otherwise the kind decides. */
  ghost predicate ClassedBy(event: Event, raw: RawEvent) {
    var base := Classify(raw.kind);
    if base.category == Completed then
      event.category == Completed && event.severity == base.severity && event.request == None
    else if raw.request.Some? then
      && event.category == Request && event.request == raw.request
      && event.severity == (if base.category == Request then base.severity else Critical)
    else event.category == base.category && event.severity == base.severity && event.request == None
  }

  /** An event is taken if and only if it names an agent and a kind and carries a number. It is stored with
      everything it said, the next number and this instant, and queued as new: live, not escalated, and
      waiting for an answer if and only if it is a request. */
  lemma EventTaken(core: Core, raw: RawEvent, now: Time, id: EventId)
    requires CoreOk(core) && id !in core.events
    ensures var q := Step(core, AdapterEvent(raw), now, id).core;
            && (id in q.events <==> !IsBlank(raw.agentId) && !IsBlank(raw.kind) && raw.agentSeq > 0)
            && (id in q.events ==>
                  && id in q.entries
                  && var event, entry := q.events[id], q.entries[id];
                     && event.eventId == id && event.seqNo == core.nextSeq + 1 && event.ts == now
                     && event.agentSeq == raw.agentSeq && event.agentId == raw.agentId && event.taskId == raw.taskId
                     && event.kind == raw.kind && event.operation == raw.operation && event.message == raw.message
                     && ClassedBy(event, raw)
                     && entry.state == New && !entry.superseded && entry.escalationLevel == 0
                     && entry.resolution == (if event.category == Request then Some(Unresolved) else None)
                     && entry.score == Score(entry, event, now))
  {
    hide CoreOk, Step, MakeEvent, MakeEntry, Observed, Displaced, IsBlank, Classify;
    KeysAgree(core);
    if Malformed(raw) {
      DroppedFrame(core, raw, now, id);
    } else {
      EventStepEntries(core, raw, now, id);
      EventMade(core, raw, now, id);
      EntryMade(MakeEvent(core, raw, now, id), now);
    }
  }

  lemma EventMade(core: Core, raw: RawEvent, now: Time, id: EventId)
    ensures var event := MakeEvent(core, raw, now, id);
            && event.eventId == id && event.seqNo == core.nextSeq + 1 && event.ts == now
            && event.agentSeq == raw.agentSeq && event.agentId == raw.agentId && event.taskId == raw.taskId
            && event.kind == raw.kind && event.operation == raw.operation && event.message == raw.message
            && ClassedBy(event, raw)
  {
    hide Classify;
  }

  lemma EntryMade(event: Event, now: Time)
    ensures var entry := MakeEntry(event, now);
            && entry.state == New && !entry.superseded && entry.escalationLevel == 0
            && entry.resolution == (if event.category == Request then Some(Unresolved) else None)
            && entry.score == Score(entry, event, now)
  {
  }

  ghost predicate SupersededPush(o: Outgoing) {
    o.ToAll? && o.body.StatePush? && o.body.state.superseded
  }

  lemma {:induction false} SupersedingSays(p: Pipe, ids: seq<EventId>)
    ensures var q := SupersedeAll(p, ids);
            && p.out <= q.out && forall i :: |p.out| <= i < |q.out| ==> SupersededPush(q.out[i])
  {
    if ids != [] {
      SupersedingSays(p, ids[..|ids| - 1]);
    }
  }

  /** The event is announced last, as it is stored and queued, after what it superseded. */
  lemma EventAnnouncedLast(core: Core, raw: RawEvent, now: Time, id: EventId)
    requires CoreOk(core) && id !in core.events && !Malformed(raw)
    ensures var p := Step(core, AdapterEvent(raw), now, id);
            && id in p.core.events && id in p.core.entries && p.out != []
            && p.out[|p.out| - 1] == ToAll(EventPush(p.core.events[id], p.core.entries[id]))
            && forall i :: 0 <= i < |p.out| - 1 ==> SupersededPush(p.out[i])
  {
    hide CoreOk, Malformed, MakeEvent, MakeEntry, Observed, Displaced, SupersedeAll, MakeLogs, MakeMetrics;
    EventStepEntries(core, raw, now, id);
    var event := MakeEvent(core, raw, now, id);
    var observed := Pipe(Processed(core, raw, now, id).(open := Observed(core.open, event).0), []);
    SupersedingSays(observed, Displaced(core, event));
  }

  // ---- requests --------------------------------------------------------------------------------------

  ghost predicate OnlyReply(out: seq<Outgoing>, client: ClientId, requestId: Option<string>, body: Body) {
    && out != [] && out[|out| - 1] == ToClient(client, Message(requestId, body))
    && forall i :: 0 <= i < |out| - 1 ==> !out[i].ToClient?
  }

  /** Every request is answered exactly once, last, to its own client and under its own id. */
  ghost predicate Answered(core: Core, p: Pipe, client: ClientId, requestId: Option<string>, request: ClientRequest) {
    match request
    case GetMetrics => OnlyReply(p.out, client, requestId, MetricsReply(core.metrics))
    case Ack(id) =>
      OnlyReply(p.out, client, requestId, CommandResult(if id in core.entries then None else Some(NoSuchEvent)))
    case Dismiss(id) =>
      OnlyReply(p.out, client, requestId, CommandResult(if id in core.entries then None else Some(NoSuchEvent)))
    case Respond(id, _, _, _) =>
      OnlyReply(p.out, client, requestId,
        CommandResult(
          if id !in core.entries then Some(NoSuchEvent)
          else match core.entries[id].resolution
            case None => Some(NotARequest)
            case Some(PendingDelivery) => Some(DeliveryPending)
            case Some(Approved) => Some(AlreadyResolved)
            case Some(Denied) => Some(AlreadyResolved)
            case Some(Unresolved) =>
              if core.responder.Some? && (core.responder.value.closed ||
                                          |core.responder.value.queue| >= core.responder.value.capacity)
              then Some(DeliveryFailed) else None))
    case GetEventDetails(id) =>
      if id in core.entries
      then id in core.events && id in p.core.entries &&
        OnlyReply(p.out, client, requestId, EventDetails(core.events[id], p.core.entries[id]))
      else OnlyReply(p.out, client, requestId, ErrorReply("no_such_event"))
    case GetEventLogs(id, offset, limit) =>
      (match EventLogs(core.logs, id, offset, limit)
       case Some(page) => OnlyReply(p.out, client, requestId, EventLogsReply(id, page))
       case None => OnlyReply(p.out, client, requestId, CommandResult(Some(NoSuchEvent))))
    case StartTask(_, _) => OnlyReply(p.out, client, requestId, CommandResult(None))
    case BridgeMessage => OnlyReply(p.out, client, requestId, ErrorReply("unsupported"))
    case OtherMessage => OnlyReply(p.out, client, requestId, ErrorReply("unsupported"))
  }

  ghost predicate NoReply(out: seq<Outgoing>) {
    forall i :: 0 <= i < |out| ==> !out[i].ToClient?
  }

  lemma ScoreSaysNothing(p: Pipe, id: EventId, now: Time)
    requires NoReply(p.out)
    ensures NoReply(UpdateScore(p, id, now).out)
    ensures var q := UpdateScore(p, id, now).core; q.events == p.core.events && q.entries.Keys == p.core.entries.Keys
  {
    hide Rescored;
  }

  lemma SettleSaysNothing(p: Pipe, id: EventId, resolution: Resolution, now: Time)
    requires NoReply(p.out)
    ensures NoReply(Settle(p, id, resolution, now).out)
  {
    hide UpdateScore;
    if id in p.core.entries && p.core.entries[id].resolution == Some(PendingDelivery) {
      var e := p.core.entries[id].(resolution := Some(resolution));
      ScoreSaysNothing(p.(core := p.core.(entries := p.core.entries[id := e])), id, now);
    }
  }

  lemma AcceptSaysNothing(p: Pipe, client: ClientId, id: EventId, decision: Decision, response: RequestResponse, now: Time)
    requires NoReply(p.out) && id in p.core.entries
    ensures NoReply(AcceptResponse(p, client, id, decision, response, now).out)
  {
    hide UpdateScore, ResponseText, PinnedAppended;
    var e := p.core.entries[id].(resolution := Some(PendingDelivery));
    ScoreSaysNothing(p.(core := p.core.(entries := p.core.entries[id := e],
                                        metrics := p.core.metrics.(responses := p.core.metrics.responses + 1))), id, now);
  }

  lemma RespondAnswered(core: Core, client: ClientId, requestId: Option<string>, id: EventId, decision: Decision,
                        response: RequestResponse, now: Time)
    ensures var p := RespondStep(Pipe(core, []), client, requestId, id, decision, response, now);
            Answered(core, p, client, requestId, Respond(id, decision, None, None))
  {
    hide AcceptResponse, Settle, CommandFor;
    var p := Pipe(core, []);
    if id in core.entries && core.entries[id].resolution == Some(Unresolved) {
      AcceptSaysNothing(p, client, id, decision, response, now);
      var accepted := AcceptResponse(p, client, id, decision, response, now);
      SettleSaysNothing(accepted, id, ResolutionOf(decision), now);
      SettleSaysNothing(accepted, id, Unresolved, now);
    }
  }

  lemma DetailsAnswered(core: Core, client: ClientId, requestId: Option<string>, id: EventId, now: Time)
    requires WellKeyed(core.entries) && core.entries.Keys == core.events.Keys
    ensures var p := DetailsStep(Pipe(core, []), client, requestId, id, now);
            Answered(core, p, client, requestId, GetEventDetails(id))
  {
    hide UpdateScore, StateOf;
    if id in core.entries {
      var p := Pipe(core, []);
      var counted := p.(core := core.(metrics := core.metrics.(detailRefetches := core.metrics.detailRefetches + 1)));
      var e := Acked(core.entries[id]);
      ScoreSaysNothing(Announce(SetEntry(counted, e), StatePush(StateOf(e))), id, now);
    }
  }

  lemma RequestsAnswered(core: Core, client: ClientId, requestId: Option<string>, request: ClientRequest, now: Time, id: EventId)
    requires CoreOk(core)
    ensures Answered(core, Step(core, FromClient(client, requestId, request), now, id), client, requestId, request)
  {
    hide CoreOk, RespondStep, DetailsStep, EventLogs, LogPrompt, Lines, LogAppended, FromRespondRequest, StateOf;
    KeysAgree(core);
    match request
    case Respond(k, decision, selected, text) =>
      RespondAnswered(core, client, requestId, k, decision, FromRespondRequest(decision, selected, text), now);
    case GetEventDetails(k) => DetailsAnswered(core, client, requestId, k, now);
    case _ =>
  }

  // ---- lines of a prompt ------------------------------------------------------------------------------

  lemma {:induction false} LinesOfOne(line: string, rest: string, current: string)
    requires '\n' !in line
    ensures Lines(line + "\n" + rest, current) == [DropReturn(current + line)] + Lines(rest, "")
    decreases |line|
  {
    if line == "" {
      assert (line + "\n" + rest)[1..] == rest && current + line == current;
    } else {
      assert (line + "\n" + rest)[1..] == line[1..] + "\n" + rest;
      LinesOfOne(line[1..], rest, current + [line[0]]);
      assert (current + [line[0]]) + line[1..] == current + line;
    }
  }

  lemma {:induction false} LinesOfLast(line: string, current: string)
    requires '\n' !in line
    ensures Lines(line, current) == if current + line == "" then [] else [current + line]
    decreases |line|
  {
    if line == "" {
      assert current + line == current;
    } else {
      LinesOfLast(line[1..], current + [line[0]]);
      assert (current + [line[0]]) + line[1..] == current + line;
    }
  }

  function Written(lines: seq<string>, end: string): string {
    if lines == [] then "" else Written(lines[..|lines| - 1], end) + (lines[|lines| - 1] + end)
  }

  lemma {:induction false} WrittenFront(lines: seq<string>, end: string)
    requires lines != []
    ensures Written(lines, end) == (lines[0] + end) + Written(lines[1..], end)
  {
    if |lines| == 1 {
      assert lines[..0] == [] && lines[1..] == [];
      assert "" + lines[0] + end == lines[0] + end + "";
    } else {
      var init, last, rest := lines[..|lines| - 1], lines[|lines| - 1], lines[1..];
      WrittenFront(init, end);
      assert rest[..|rest| - 1] == init[1..] && rest[|rest| - 1] == last && init[0] == lines[0];
      Regroup(lines[0] + end, Written(init[1..], end), last + end);
    }
  }

  lemma Regroup(a: string, b: string, c: string)
    ensures (a + b) + c == a + (b + c)
  {
  }

  lemma OneLineRead(line: string, more: string, windows: bool)
    requires '\n' !in line && (line == "" || line[|line| - 1] != '\r')
    ensures Lines(line + (if windows then "\r\n" else "\n") + more, "") == [line] + Lines(more, "")
  {
    hide Lines;
    var body := if windows then line + "\r" else line;
    assert line + (if windows then "\r\n" else "\n") + more == body + "\n" + more;
    LinesOfOne(body, more, "");
    assert "" + body == body;
    if windows {
      assert body[..|body| - 1] == line;
    }
  }

  /** Lines written one after the other are read back, whichever line end was used, and so is a last one
      without an end. */
  lemma {:induction false} LinesReadBack(lines: seq<string>, last: string, windows: bool)
    requires '\n' !in last
    requires forall line :: line in lines ==> '\n' !in line && (line == "" || line[|line| - 1] != '\r')
    ensures Lines(Written(lines, if windows then "\r\n" else "\n") + last, "") == lines + if last == "" then [] else [last]
  {
    hide Lines, Written;
    var end := if windows then "\r\n" else "\n";
    var tail := if last == "" then [] else [last];
    if lines == [] {
      NothingWritten(end);
      LinesOfLast(last, "");
      assert "" + last == last && [] + tail == tail;
    } else {
      WrittenFront(lines, end);
      LinesReadBack(lines[1..], last, windows);
      var more := Written(lines[1..], end) + last;
      assert lines[0] + end + Written(lines[1..], end) + last == lines[0] + end + more;
      OneLineRead(lines[0], more, windows);
      FrontAndRest(lines, tail);
    }
  }

  lemma FrontAndRest(lines: seq<string>, tail: seq<string>)
    requires lines != []
    ensures [lines[0]] + (lines[1..] + tail) == lines + tail
  {
  }

  lemma NothingWritten(end: string)
    ensures Written([], end) == ""
  {
  }
}
