/** Which commands change which part of which entry of the queue, read off the state before. */
module Changes {
  import opened Types
  import opened Ordering
  import opened Scoring
  import opened PriorityQueues
  import opened Tracker
  import opened LogStores
  import opened CoreMachine
  import opened Coherence
  import opened Clients
  import opened Delivery
  import opened Agreement

  /** Score announcements carry one part of an entry, state announcements the other. */
  datatype Aspect = Ranking | Attention

  datatype Part =
    | Rank(score: nat, escalationLevel: nat)
    | Status(state: EntryState, resolution: Option<Resolution>, superseded: bool)

  function PartOf(e: QueueEntry, a: Aspect): Part {
    match a
    case Ranking => Rank(e.score, e.escalationLevel)
    case Attention => Status(e.state, e.resolution, e.superseded)
  }

  // ---- when --------------------------------------------------------------------------------------------

  /** An event displaces the entry and it is not spared; its client reads or dismisses it for the first
      time; its request is answered, unless the channel refuses the answer; or its answer comes back. */
  ghost predicate TouchesAttention(core: Core, command: Command, now: Time, newId: EventId, k: EventId)
    requires k in core.entries
  {
    var e := core.entries[k];
    match command
    case AdapterEvent(raw) =>
      !Malformed(raw) && k in Displaced(core, MakeEvent(core, raw, now, newId)) && !e.superseded && !Spared(e)
    case FromClient(_, _, request) =>
      (match request
       case Ack(id) => id == k && e.state == New
       case GetEventDetails(id) => id == k && e.state == New
       case Dismiss(id) => id == k && e.state != Dismissed
       case Respond(id, _, _, _) =>
         id == k && e.resolution == Some(Unresolved) && (core.responder.None? || Accepts(core.responder.value))
       case _ => false)
    case AdapterResponse(outcome) => outcome.id == k && e.resolution == Some(PendingDelivery)
    case _ => false
  }

  /** A tick raises its level, or finds its score stale while it is live; or it is re-scored because it was
      opened for the first time, answered, or its answer came back, and its score was not that of its new
      state at this instant. */
  ghost predicate TouchesRanking(core: Core, command: Command, now: Time, k: EventId)
    requires k in core.entries && k in core.events
  {
    var e, event := core.entries[k], core.events[k];
    match command
    case Tick =>
      || (e.IsLive() && Score(e, event, now) != e.score)
      || (exists action :: action in TickActions(core.open, core.thresholds, now) && Raises(action, k, e))
    case FromClient(_, _, request) =>
      (match request
       case GetEventDetails(id) => id == k && e.state == New && Score(e.(state := Seen), event, now) != e.score
       case Respond(id, decision, _, _) =>
         && id == k && e.resolution == Some(Unresolved)
         && Score(if core.responder.None? then e.(resolution := Some(ResolutionOf(decision))) else e, event, now) != e.score
       case _ => false)
    case AdapterResponse(outcome) =>
      && outcome.id == k && e.resolution == Some(PendingDelivery)
      && Score(if outcome.Delivered? then e.(resolution := Some(ResolutionOf(outcome.decision))) else e, event, now) != e.score
    case _ => false
  }

  predicate Raises(action: EscalationAction, k: EventId, e: QueueEntry) {
    action.eventId == k && action.level != e.escalationLevel
  }

  ghost predicate Touches(core: Core, command: Command, now: Time, newId: EventId, k: EventId, a: Aspect)
    requires k in core.entries && k in core.events
  {
    match a
    case Ranking => TouchesRanking(core, command, now, k)
    case Attention => TouchesAttention(core, command, now, newId, k)
  }

  // ---- the entry after a command -----------------------------------------------------------------------

  ghost predicate Raised(core: Core, now: Time, k: EventId)
    requires k in core.entries
  {
    exists action :: action in TickActions(core.open, core.thresholds, now) && Raises(action, k, core.entries[k])
  }

  ghost function TickedEntry(core: Core, now: Time, k: EventId): QueueEntry
    requires k in core.entries
  {
    var e := core.entries[k];
    var rescored := if e.IsLive() then Rescored(e, core.events, now) else e;
    if Raised(core, now, k) then
      var action :| action in TickActions(core.open, core.thresholds, now) && Raises(action, k, e);
      Rescored(rescored.(escalationLevel := action.level), core.events, now)
    else rescored
  }

  function SettledEntry(e: QueueEntry, events: Events, resolution: Resolution, now: Time): QueueEntry {
    if e.resolution == Some(PendingDelivery) then Rescored(e.(resolution := Some(resolution)), events, now) else e
  }

  function AnsweredEntry(core: Core, e: QueueEntry, decision: Decision, now: Time): QueueEntry {
    if e.resolution != Some(Unresolved) then e
    else
      var pending := Rescored(e.(resolution := Some(PendingDelivery)), core.events, now);
      if core.responder.None? then SettledEntry(pending, core.events, ResolutionOf(decision), now)
      else if Accepts(core.responder.value) then pending
      else SettledEntry(pending, core.events, Unresolved, now)
  }

  function RequestedEntry(core: Core, request: ClientRequest, now: Time, k: EventId): QueueEntry
    requires k in core.entries
  {
    var e := core.entries[k];
    match request
    case Ack(id) => if id == k then Acked(e) else e
    case Dismiss(id) => if id == k then DismissedEntry(e) else e
    case GetEventDetails(id) => if id == k && e.state == New then Rescored(Acked(e), core.events, now) else e
    case Respond(id, decision, _, _) => if id == k then AnsweredEntry(core, e, decision, now) else e
    case _ => e
  }

  ghost function EntryAfter(core: Core, command: Command, now: Time, newId: EventId, k: EventId): QueueEntry
    requires k in core.entries
  {
    var e := core.entries[k];
    match command
    case Tick => TickedEntry(core, now, k)
    case AdapterEvent(raw) =>
      if !Malformed(raw) && k in Displaced(core, MakeEvent(core, raw, now, newId)) then Superseded(e) else e
    case FromClient(_, _, request) => RequestedEntry(core, request, now, k)
    case AdapterResponse(outcome) =>
      if outcome.id == k
      then SettledEntry(e, core.events, if outcome.Delivered? then ResolutionOf(outcome.decision) else Unresolved, now)
      else e
    case _ => e
  }

  lemma ScoredElsewhere(p: Pipe, id: EventId, now: Time, k: EventId)
    requires k in p.core.entries
    ensures var q := UpdateScore(p, id, now).core;
            && q.events == p.core.events && q.open == p.core.open && q.responder == p.core.responder
            && k in q.entries
            && q.entries[k] == if id == k then Rescored(p.core.entries[k], p.core.events, now) else p.core.entries[k]
  {
    hide Rescored;
  }

  lemma RescoredKeys(e: QueueEntry, events: Events, now: Time)
    ensures var r := Rescored(e, events, now); r == e.(score := r.score)
  {
  }

  lemma EscalatedEntry(p: Pipe, action: EscalationAction, now: Time, k: EventId)
    requires k in p.core.entries
    ensures var q, e := EscalateOne(p, action, now).core, p.core.entries[k];
            && q.events == p.core.events && k in q.entries
            && q.entries[k] == if Raises(action, k, e)
                               then Rescored(e.(escalationLevel := action.level), p.core.events, now) else e
  {
    hide UpdateScore, Rescored;
    var id := action.eventId;
    if id in p.core.entries && p.core.entries[id].escalationLevel != action.level {
      var raised := p.core.entries[id].(escalationLevel := action.level);
      var counted := p.(core := p.core.(metrics := p.core.metrics.(escalations := p.core.metrics.escalations + 1)));
      ScoredElsewhere(counted.(core := counted.core.(entries := p.core.entries[id := raised])), id, now, k);
    }
  }

  /** At most one of the actions names the entry. */
  ghost predicate NamedOnce(actions: seq<EscalationAction>, k: EventId) {
    forall i, j :: 0 <= i < j < |actions| ==> actions[i].eventId != k || actions[j].eventId != k
  }

  lemma {:induction false} EscalatedEntries(p: Pipe, actions: seq<EscalationAction>, now: Time, k: EventId)
    requires k in p.core.entries && NamedOnce(actions, k)
    ensures var q, e := EscalateAll(p, actions, now).core, p.core.entries[k];
            && q.events == p.core.events && k in q.entries
            && ((forall action :: action in actions ==> !Raises(action, k, e)) ==> q.entries[k] == e)
            && (forall action :: action in actions && Raises(action, k, e) ==>
                  q.entries[k] == Rescored(e.(escalationLevel := action.level), p.core.events, now))
  {
    hide EscalateOne, Rescored;
    if actions != [] {
      var init, last := actions[..|actions| - 1], actions[|actions| - 1];
      EscalatedEntries(p, init, now, k);
      EscalatedEntry(EscalateAll(p, init, now), last, now, k);
      assert forall action :: action in actions <==> action in init || action == last;
      if last.eventId == k {
        assert forall action :: action in init ==> action.eventId != k;
      }
    }
  }

  /** Each working event belongs to one task, so a tick acts on it at most once. */
  lemma TickNamesOnce(core: Core, now: Time, k: EventId)
    requires CoreOk(core)
    ensures NamedOnce(TickActions(core.open, core.thresholds, now), k)
  {
    hide TickActions, StringLe, StoreOk, StrictlySorted;
    var actions := TickActions(core.open, core.thresholds, now);
    TickActionsExact(core.open, core.thresholds, now);
    forall i, j | 0 <= i < j < |actions| ensures actions[i].eventId != k || actions[j].eventId != k {
      assert actions[i] in Elements(actions) && actions[j] in Elements(actions);
      var s, t := actions[i].taskId, actions[j].taskId;
      assert TaskRefsOk(s, core.open[s], core.events) && TaskRefsOk(t, core.open[t], core.events);
    }
  }

  lemma TickEntry(core: Core, now: Time, k: EventId)
    requires CoreOk(core) && k in core.entries
    ensures var q := TickStep(Pipe(core, []), now).core; k in q.entries && q.entries[k] == TickedEntry(core, now, k)
  {
    hide TickActions, TickedTasks, EscalateAll, Rescored, CoreOk, RescoreUpdates, ScorePushes;
    var p := Pipe(core, []);
    var rescored := RescoreStep(p, now);
    var actions := TickActions(core.open, core.thresholds, now);
    var ticked := rescored.(core := rescored.core.(open := TickedTasks(core.open, core.thresholds, now)));
    TickNamesOnce(core, now, k);
    EscalatedEntries(ticked, actions, now, k);
    RescoredKeys(core.entries[k], core.events, now);
    var e, r := core.entries[k], ticked.core.entries[k];
    assert forall action :: Raises(action, k, r) == Raises(action, k, e);
  }

  lemma SettleEntry(p: Pipe, id: EventId, resolution: Resolution, now: Time, k: EventId)
    requires k in p.core.entries
    ensures var q, e := Settle(p, id, resolution, now).core, p.core.entries[k];
            && k in q.entries
            && q.entries[k] == if id == k then SettledEntry(e, p.core.events, resolution, now) else e
  {
    hide UpdateScore, Rescored;
    if id in p.core.entries && p.core.entries[id].resolution == Some(PendingDelivery) {
      var e := p.core.entries[id].(resolution := Some(resolution));
      ScoredElsewhere(p.(core := p.core.(entries := p.core.entries[id := e])), id, now, k);
    }
  }

  lemma AcceptEntry(p: Pipe, client: ClientId, id: EventId, decision: Decision, response: RequestResponse, now: Time, k: EventId)
    requires id in p.core.entries && k in p.core.entries
    ensures var q, e := AcceptResponse(p, client, id, decision, response, now).core, p.core.entries[k];
            && q.events == p.core.events && q.responder == p.core.responder && k in q.entries
            && q.entries[k] == if id == k then Rescored(e.(resolution := Some(PendingDelivery)), p.core.events, now) else e
  {
    hide UpdateScore, ResponseText, Rescored;
    var e := p.core.entries[id].(resolution := Some(PendingDelivery));
    ScoredElsewhere(p.(core := p.core.(entries := p.core.entries[id := e],
                                       metrics := p.core.metrics.(responses := p.core.metrics.responses + 1))), id, now, k);
  }

  lemma RespondEntry(core: Core, client: ClientId, requestId: Option<string>, id: EventId, decision: Decision,
                     response: RequestResponse, now: Time, k: EventId)
    requires k in core.entries
    ensures var q := RespondStep(Pipe(core, []), client, requestId, id, decision, response, now).core;
            var e := core.entries[k];
            && k in q.entries && q.entries[k] == if id == k then AnsweredEntry(core, e, decision, now) else e
  {
    hide AcceptResponse, Settle, CommandFor, Accepts, Rescored;
    if id in core.entries && core.entries[id].resolution == Some(Unresolved) {
      AcceptEntry(Pipe(core, []), client, id, decision, response, now, k);
      var accepted := AcceptResponse(Pipe(core, []), client, id, decision, response, now);
      SettleEntry(accepted, id, if core.responder.None? then ResolutionOf(decision) else Unresolved, now, k);
    }
  }

  lemma DetailsEntry(core: Core, client: ClientId, requestId: Option<string>, id: EventId, now: Time, k: EventId)
    requires WellKeyed(core.entries) && k in core.entries
    ensures var q, e := DetailsStep(Pipe(core, []), client, requestId, id, now).core, core.entries[k];
            && k in q.entries
            && q.entries[k] == if id == k && e.state == New then Rescored(Acked(e), core.events, now) else e
  {
    hide UpdateScore, Rescored, StateOf;
    if id in core.entries {
      var p := Pipe(core, []);
      var counted := p.(core := core.(metrics := core.metrics.(detailRefetches := core.metrics.detailRefetches + 1)));
      ScoredElsewhere(Announce(SetEntry(counted, Acked(core.entries[id])), StatePush(StateOf(Acked(core.entries[id])))),
                      id, now, k);
    }
  }

  lemma RequestEntry(core: Core, client: ClientId, requestId: Option<string>, request: ClientRequest, now: Time, k: EventId)
    requires WellKeyed(core.entries) && k in core.entries
    ensures var q := ClientStep(Pipe(core, []), client, requestId, request, now).core;
            k in q.entries && q.entries[k] == RequestedEntry(core, request, now, k)
  {
    hide RespondStep, DetailsStep, FromRespondRequest, LogPrompt, Lines, Rescored, AnsweredEntry, StateOf;
    match request
    case Respond(id, decision, selected, text) =>
      RespondEntry(core, client, requestId, id, decision, FromRespondRequest(decision, selected, text), now, k);
    case GetEventDetails(id) => DetailsEntry(core, client, requestId, id, now, k);
    case _ =>
  }

  lemma StepEntry(core: Core, command: Command, now: Time, newId: EventId, k: EventId)
    requires CoreOk(core) && newId !in core.events && k in core.entries
    ensures var q := Step(core, command, now, newId).core;
            k in q.entries && q.entries[k] == EntryAfter(core, command, now, newId, k)
  {
    hide CoreOk, TickStep, ClientStep, Settle, EventStep, TickedEntry, RequestedEntry, SettledEntry, Malformed, MakeEvent,
      Displaced, SnapshotBody, LogAppended, MakeEntry, Observed;
    match command
    case Tick => TickEntry(core, now, k);
    case AdapterEvent(raw) => EventEntry(core, raw, now, newId, k);
    case FromClient(client, requestId, request) =>
      KeysAgree(core);
      RequestEntry(core, client, requestId, request, now, k);
    case AdapterResponse(outcome) =>
      SettleEntry(Pipe(core, []), outcome.id, if outcome.Delivered? then ResolutionOf(outcome.decision) else Unresolved, now, k);
    case _ =>
  }

  lemma EventEntry(core: Core, raw: RawEvent, now: Time, newId: EventId, k: EventId)
    requires CoreOk(core) && newId !in core.events && k in core.entries
    ensures var q := Step(core, AdapterEvent(raw), now, newId).core;
            && k in q.entries
            && q.entries[k] == if !Malformed(raw) && k in Displaced(core, MakeEvent(core, raw, now, newId))
                               then Superseded(core.entries[k]) else core.entries[k]
  {
    hide CoreOk, Step, Malformed, MakeEvent, Displaced, MakeEntry, Observed, Superseded;
    KeysAgree(core);
    if Malformed(raw) {
      DroppedEntries(core, raw, now, newId);
    } else {
      EventStepEntries(core, raw, now, newId);
    }
  }

  lemma DroppedEntries(core: Core, raw: RawEvent, now: Time, newId: EventId)
    requires Malformed(raw)
    ensures Step(core, AdapterEvent(raw), now, newId).core.entries == core.entries
  {
    hide Malformed;
  }

  // ---- what changed ----------------------------------------------------------------------------------

  lemma TickTouches(core: Core, now: Time, k: EventId)
    requires k in core.entries && k in core.events && core.entries[k].eventId == k
    ensures var e := TickedEntry(core, now, k);
            && PartOf(e, Attention) == PartOf(core.entries[k], Attention)
            && (PartOf(e, Ranking) != PartOf(core.entries[k], Ranking) <==> TouchesRanking(core, Tick, now, k))
  {
    hide TickActions, Score;
  }

  lemma PendingScores(e: QueueEntry, r: QueueEntry, event: Event, now: Time)
    requires e.resolution == Some(Unresolved) || e.resolution == Some(PendingDelivery)
    requires r == e.(resolution := Some(Unresolved)) || r == e.(resolution := Some(PendingDelivery))
    ensures Score(r, event, now) == Score(e, event, now)
  {
  }

  lemma SettledTouches(e: QueueEntry, events: Events, resolution: Resolution, now: Time)
    requires e.eventId in events && e.resolution == Some(PendingDelivery) && resolution != PendingDelivery
    ensures var r, event := SettledEntry(e, events, resolution, now), events[e.eventId];
            && PartOf(r, Attention) != PartOf(e, Attention)
            && (PartOf(r, Ranking) != PartOf(e, Ranking) <==>
                  Score(if resolution == Unresolved then e else e.(resolution := Some(resolution)), event, now) != e.score)
  {
    hide Score;
    PendingScores(e, e.(resolution := Some(Unresolved)), events[e.eventId], now);
  }

  lemma AnsweredTouches(core: Core, e: QueueEntry, decision: Decision, now: Time)
    requires e.eventId in core.events && e.resolution == Some(Unresolved)
    ensures var r, event := AnsweredEntry(core, e, decision, now), core.events[e.eventId];
            && (PartOf(r, Attention) != PartOf(e, Attention) <==> core.responder.None? || Accepts(core.responder.value))
            && (PartOf(r, Ranking) != PartOf(e, Ranking) <==>
                  Score(if core.responder.None? then e.(resolution := Some(ResolutionOf(decision))) else e, event, now) != e.score)
  {
    hide Score, Accepts;
    var event := core.events[e.eventId];
    var pending := e.(resolution := Some(PendingDelivery));
    PendingScores(e, pending, event, now);
    var scored := Rescored(pending, core.events, now);
    ScoreIgnoresScore(e.(resolution := Some(ResolutionOf(decision))), scored.score, event, now);
    ScoreIgnoresScore(e, scored.score, event, now);
  }

  lemma RequestTouches(core: Core, command: Command, now: Time, newId: EventId, k: EventId, a: Aspect)
    requires command.FromClient? && k in core.entries && k in core.events && core.entries[k].eventId == k
    ensures PartOf(RequestedEntry(core, command.request, now, k), a) != PartOf(core.entries[k], a) <==>
              Touches(core, command, now, newId, k, a)
  {
    hide Score, Accepts, AnsweredEntry;
    if command.request.Respond? && command.request.id == k {
      if core.entries[k].resolution == Some(Unresolved) {
        AnsweredTouches(core, core.entries[k], command.request.decision, now);
      } else {
        NotAnswered(core, core.entries[k], command.request.decision, now);
      }
    }
  }

  lemma NotAnswered(core: Core, e: QueueEntry, decision: Decision, now: Time)
    requires e.resolution != Some(Unresolved)
    ensures AnsweredEntry(core, e, decision, now) == e
  {
  }

  lemma EntryTouches(core: Core, command: Command, now: Time, newId: EventId, k: EventId, a: Aspect)
    requires k in core.entries && k in core.events && core.entries[k].eventId == k
    ensures PartOf(EntryAfter(core, command, now, newId, k), a) != PartOf(core.entries[k], a) <==>
              Touches(core, command, now, newId, k, a)
  {
    hide Score, TickedEntry, RequestedEntry, SettledEntry, Malformed, MakeEvent, Displaced;
    match command
    case Tick => TickTouches(core, now, k);
    case FromClient(_, _, _) => RequestTouches(core, command, now, newId, k, a);
    case AdapterResponse(outcome) =>
      if outcome.id == k {
        var resolution := if outcome.Delivered? then ResolutionOf(outcome.decision) else Unresolved;
        if core.entries[k].resolution == Some(PendingDelivery) {
          SettledTouches(core.entries[k], core.events, resolution, now);
        } else {
          NotSettled(core.entries[k], core.events, resolution, now);
        }
      }
    case _ =>
  }

  lemma NotSettled(e: QueueEntry, events: Events, resolution: Resolution, now: Time)
    requires e.resolution != Some(PendingDelivery)
    ensures SettledEntry(e, events, resolution, now) == e
  {
  }

  /** A command changes a part of an entry exactly when it touches it. */
  lemma TouchesExactly(core: Core, command: Command, now: Time, newId: EventId, k: EventId, a: Aspect)
    requires CoreOk(core) && newId !in core.events && k in core.entries
    ensures var q := Step(core, command, now, newId).core;
            && k in q.entries
            && (PartOf(q.entries[k], a) != PartOf(core.entries[k], a) <==> Touches(core, command, now, newId, k, a))
  {
    hide CoreOk, Step, EntryAfter, PartOf, Touches;
    assert core.entries[k].eventId == k by { KeyOfEntry(core, k); }
    KeysAgree(core);
    StepEntry(core, command, now, newId, k);
    EntryTouches(core, command, now, newId, k, a);
  }
}
