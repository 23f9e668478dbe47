/** Open requests that no task lists: how a request gets there, exactly. */
module Orphans {
  import opened Types
  import opened PriorityQueues
  import opened Tracker
  import opened LogStores
  import opened CoreMachine
  import opened Coherence
  import opened Clients
  import opened Delivery
  import opened Agreement

  ghost predicate TrackedRequest(core: Core, id: EventId) {
    && id in core.events && id in core.entries
    && core.events[id].category == Request && TrackedTask(core.events[id]).Some?
  }

  /** Waiting for an answer, live, and listed by no task, so that nothing its task does will ever supersede
      it. */
  ghost predicate Orphan(core: Core, id: EventId) {
    && TrackedRequest(core, id)
    && core.entries[id].IsLive() && core.entries[id].resolution == Some(Unresolved)
    && !ListedRequest(core.open, core.events[id])
  }

  /** The same, but with its answer on the way. */
  ghost predicate PendingUnlisted(core: Core, id: EventId) {
    && TrackedRequest(core, id)
    && core.entries[id].IsLive() && core.entries[id].resolution == Some(PendingDelivery)
    && !ListedRequest(core.open, core.events[id])
  }

  // ---- dismissal is final -------------------------------------------------------------------------

  ghost predicate SameAttention(a: Entries, b: Entries) {
    a.Keys <= b.Keys && forall k :: k in a ==> b[k].state == a[k].state
  }

  ghost predicate DismissalKept(a: Entries, b: Entries) {
    a.Keys <= b.Keys && forall k :: k in a && a[k].state == Dismissed ==> b[k].state == Dismissed
  }

  lemma ScoreAttention(p: Pipe, id: EventId, now: Time)
    ensures SameAttention(p.core.entries, UpdateScore(p, id, now).core.entries)
  {
    hide UpdateScore;
    UpdateScoreFrame(p, id, now);
  }

  lemma EscalateOneAttention(p: Pipe, action: EscalationAction, now: Time)
    ensures SameAttention(p.core.entries, EscalateOne(p, action, now).core.entries)
  {
    hide Rescored;
    var id := action.eventId;
    if id in p.core.entries {
      RescoredAttention(p.core.entries[id].(escalationLevel := action.level), p.core.events, now);
    }
  }

  lemma RescoredAttention(e: QueueEntry, events: Events, now: Time)
    ensures Rescored(e, events, now).state == e.state
  {
  }

  lemma {:induction false} EscalateAllAttention(p: Pipe, actions: seq<EscalationAction>, now: Time)
    ensures SameAttention(p.core.entries, EscalateAll(p, actions, now).core.entries)
  {
    hide EscalateOne;
    if actions != [] {
      var init := actions[..|actions| - 1];
      EscalateAllAttention(p, init, now);
      EscalateOneAttention(EscalateAll(p, init, now), actions[|actions| - 1], now);
    }
  }

  lemma TickAttention(p: Pipe, now: Time)
    ensures SameAttention(p.core.entries, TickStep(p, now).core.entries)
  {
    hide EscalateAll, TickActions, TickedTasks, RescoreUpdates, Rescored, ScorePushes;
    var rescored := RescoreStep(p, now);
    forall k | k in p.core.entries ensures rescored.core.entries[k].state == p.core.entries[k].state {
      RescoredAttention(p.core.entries[k], p.core.events, now);
    }
    EscalateAllAttention(rescored.(core := rescored.core.(open := TickedTasks(p.core.open, p.core.thresholds, now))),
                         TickActions(p.core.open, p.core.thresholds, now), now);
  }

  lemma SettleAttention(p: Pipe, id: EventId, resolution: Resolution, now: Time)
    ensures SameAttention(p.core.entries, Settle(p, id, resolution, now).core.entries)
  {
    hide UpdateScore;
    if id in p.core.entries {
      var e := p.core.entries[id].(resolution := Some(resolution));
      ScoreAttention(p.(core := p.core.(entries := p.core.entries[id := e])), id, now);
    }
  }

  lemma AcceptAttention(p: Pipe, client: ClientId, id: EventId, decision: Decision, response: RequestResponse, now: Time)
    requires id in p.core.entries
    ensures SameAttention(p.core.entries, AcceptResponse(p, client, id, decision, response, now).core.entries)
  {
    hide UpdateScore, ResponseText;
    var e := p.core.entries[id].(resolution := Some(PendingDelivery));
    ScoreAttention(p.(core := p.core.(entries := p.core.entries[id := e],
                                      metrics := p.core.metrics.(responses := p.core.metrics.responses + 1))), id, now);
  }

  lemma RespondAttention(p: Pipe, client: ClientId, requestId: Option<string>, id: EventId, decision: Decision,
                         response: RequestResponse, now: Time)
    ensures SameAttention(p.core.entries, RespondStep(p, client, requestId, id, decision, response, now).core.entries)
  {
    hide AcceptResponse, Settle, CommandFor, Accepts;
    if id in p.core.entries {
      AcceptAttention(p, client, id, decision, response, now);
      var accepted := AcceptResponse(p, client, id, decision, response, now);
      SettleAttention(accepted, id, if p.core.responder.None? then ResolutionOf(decision) else Unresolved, now);
    }
  }

  lemma DetailsAttention(p: Pipe, client: ClientId, requestId: Option<string>, id: EventId, now: Time)
    requires WellKeyed(p.core.entries)
    ensures DismissalKept(p.core.entries, DetailsStep(p, client, requestId, id, now).core.entries)
  {
    hide UpdateScore, StateOf;
    if id in p.core.entries {
      var e := Acked(p.core.entries[id]);
      var counted := p.(core := p.core.(metrics := p.core.metrics.(detailRefetches := p.core.metrics.detailRefetches + 1)));
      ScoreAttention(Announce(SetEntry(counted, e), StatePush(StateOf(e))), id, now);
    }
  }

  lemma AckAttention(p: Pipe, client: ClientId, requestId: Option<string>, id: EventId)
    requires WellKeyed(p.core.entries)
    ensures DismissalKept(p.core.entries, AckStep(p, client, requestId, id).core.entries)
    ensures DismissalKept(p.core.entries, DismissStep(p, client, requestId, id).core.entries)
  {
    hide StateOf;
  }

  lemma RequestAttention(core: Core, command: Command, now: Time, id: EventId)
    requires WellKeyed(core.entries) && command.FromClient?
    ensures DismissalKept(core.entries, Step(core, command, now, id).core.entries)
  {
    hide RespondStep, DetailsStep, AckStep, DismissStep, FromRespondRequest, LogPrompt, Lines, LogAppended, SnapshotBody;
    var p := Pipe(core, []);
    match command.request
    case Ack(k) => AckAttention(p, command.client, command.requestId, k);
    case Dismiss(k) => AckAttention(p, command.client, command.requestId, k);
    case Respond(k, decision, selected, text) =>
      RespondAttention(p, command.client, command.requestId, k, decision, FromRespondRequest(decision, selected, text), now);
    case GetEventDetails(k) => DetailsAttention(p, command.client, command.requestId, k, now);
    case _ =>
  }

  /** No step without an event brings a dismissed entry back. */
  lemma QuietAttention(core: Core, command: Command, now: Time, id: EventId)
    requires WellKeyed(core.entries) && !command.AdapterEvent?
    ensures DismissalKept(core.entries, Step(core, command, now, id).core.entries)
  {
    hide TickStep, RespondStep, DetailsStep, AckStep, DismissStep, Settle, FromRespondRequest, EventLogs, LogPrompt, Lines,
      LogAppended, SnapshotBody;
    var p := Pipe(core, []);
    match command
    case Tick => TickAttention(p, now);
    case AdapterResponse(outcome) =>
      SettleAttention(p, outcome.id, if outcome.Delivered? then ResolutionOf(outcome.decision) else Unresolved, now);
    case FromClient(client, requestId, request) =>
      RequestAttention(core, command, now, id);
    case _ =>
  }

  // ---- one step -----------------------------------------------------------------------------------

  /** A step without an event and without an outcome opens no request. */
  lemma OpensNothing(core: Core, command: Command, now: Time, newId: EventId, id: EventId)
    requires WellKeyed(core.entries) && !command.AdapterEvent? && !command.AdapterResponse? && id in core.entries
    ensures var core' := Step(core, command, now, newId).core;
            id in core'.entries &&
            (core'.entries[id].resolution == Some(Unresolved) ==> core.entries[id].resolution == Some(Unresolved))
  {
    hide Step, FromRespondRequest;
    if AcceptedResponse(core, command) {
      AnsweredOnly(core, command, now, newId, id);
    } else if command.FromClient? && command.request.StartTask? {
      StartTaskQuiet(core, command, now, newId);
    } else {
      QuietStep(core, command, now, newId);
    }
  }

  lemma AnsweredOnly(core: Core, command: Command, now: Time, newId: EventId, id: EventId)
    requires AcceptedResponse(core, command) && id in core.entries
    ensures var core' := Step(core, command, now, newId).core;
            id in core'.entries &&
            (id != command.request.id ==> core'.entries[id].resolution == core.entries[id].resolution)
  {
    hide RespondStep, FromRespondRequest, Accepts;
    RespondResolutions(Pipe(core, []), command.client, command.requestId, command.request.id, command.request.decision,
                       FromRespondRequest(command.request.decision, command.request.selected, command.request.text), now);
  }

  lemma StartTaskQuiet(core: Core, command: Command, now: Time, newId: EventId)
    requires command.FromClient? && command.request.StartTask?
    ensures Step(core, command, now, newId).core.entries == core.entries
  {
    hide LogPrompt, Lines, LogAppended;
  }

  lemma ListedAfterQuiet(core: Core, core': Core, command: Command, now: Time, id: EventId)
    requires id in core.events && core'.events == core.events
    requires core'.open == if command.Tick? then TickedTasks(core.open, core.thresholds, now) else core.open
    ensures ListedRequest(core'.open, core'.events[id]) == ListedRequest(core.open, core.events[id])
  {
    hide TickedTasks;
    TickedLists(core.open, core.thresholds, now);
  }

  /** Steps that bring no event. */
  lemma QuietOrphans(core: Core, command: Command, now: Time, newId: EventId, id: EventId)
    requires CoreOk(core) && !command.AdapterEvent? && id in core.events
    ensures var core' := Step(core, command, now, newId).core;
            Orphan(core', id) && !Orphan(core, id) <==>
              && command.AdapterResponse? && command.outcome.NotDelivered? && command.outcome.id == id
              && PendingUnlisted(core, id)
  {
    hide CoreOk, Step, ListedRequest, WellKeyed;
    KeysAgree(core);
    var core' := Step(core, command, now, newId).core;
    QuietFrame(core, command, now, newId);
    QuietAttention(core, command, now, newId);
    ListedAfterQuiet(core, core', command, now, id);
    if command.AdapterResponse? {
      OutcomeOrphans(core, command.outcome, now, newId, id);
    } else {
      OpensNothing(core, command, now, newId, id);
    }
  }

  lemma OutcomeOrphans(core: Core, outcome: AdapterOutcome, now: Time, newId: EventId, id: EventId)
    requires id in core.entries
    ensures var core' := Step(core, AdapterResponse(outcome), now, newId).core;
            && id in core'.entries && core'.entries[id].state == core.entries[id].state
            && core'.entries[id].superseded == core.entries[id].superseded
            && core'.entries[id].resolution ==
                 if outcome.id == id && core.entries[id].resolution == Some(PendingDelivery)
                 then Some(if outcome.Delivered? then ResolutionOf(outcome.decision) else Unresolved)
                 else core.entries[id].resolution
  {
    hide Settle;
    var p := Pipe(core, []);
    var resolution := if outcome.Delivered? then ResolutionOf(outcome.decision) else Unresolved;
    SettleAttention(p, outcome.id, resolution, now);
    if outcome.id in core.entries && core.entries[outcome.id].resolution == Some(PendingDelivery) {
      SettleResolutions(p, outcome.id, resolution, now);
    } else {
      SettleNothing(p, outcome, now);
    }
  }

  /** An event orphans nothing: what it unlists while unresolved it supersedes, and its own request, if it
      is one, is listed. */
  lemma EventOrphans(core: Core, raw: RawEvent, now: Time, newId: EventId, id: EventId)
    requires CoreOk(core) && newId !in core.events && !Malformed(raw) && id in core.events
    ensures Orphan(Step(core, AdapterEvent(raw), now, newId).core, id) ==> Orphan(core, id)
  {
    hide CoreOk, Step, Malformed, MakeEvent, MakeEntry, Observed, Displaced, ListedRequest, ListedWorking;
    var event := MakeEvent(core, raw, now, newId);
    EventIdOfMade(core, raw, now, newId);
    EventStepEntries(core, raw, now, newId);
    KeysAgree(core);
    StoredUnderItsId(core, id);
    ObservedElsewhere(core.open, event, core.events[id]);
    DisplacedExactly(core, event, id);
  }

  lemma StoredUnderItsId(core: Core, id: EventId)
    requires CoreOk(core) && id in core.events
    ensures core.events[id].eventId == id && TrackerOk(core)
  {
  }

  lemma NewEventOrphans(core: Core, raw: RawEvent, now: Time, newId: EventId)
    requires CoreOk(core) && newId !in core.events && !Malformed(raw)
    ensures !Orphan(Step(core, AdapterEvent(raw), now, newId).core, newId)
  {
    hide CoreOk, Step, Malformed, MakeEvent, MakeEntry, Observed, Displaced, ListedRequest, ListedWorking;
    var event := MakeEvent(core, raw, now, newId);
    EventIdOfMade(core, raw, now, newId);
    EventStepEntries(core, raw, now, newId);
    TrackerOfCore(core);
    NewEventAgrees(core, event);
  }

  lemma TrackerOfCore(core: Core)
    requires CoreOk(core)
    ensures TrackerOk(core)
  {
  }

  lemma DroppedOrphans(core: Core, raw: RawEvent, now: Time, newId: EventId, id: EventId)
    requires Malformed(raw)
    ensures Orphan(Step(core, AdapterEvent(raw), now, newId).core, id) == Orphan(core, id)
  {
    hide Malformed;
  }

  // ---- runs -----------------------------------------------------------------------------------------

  /** Over every run, a request becomes an orphan at a step exactly when the step is the failed delivery of
      its own answer and it was pending, live and unlisted before. In particular a request that was
      approved or denied never does, and neither does a new one. */
  lemma OrphanedExactly(states: seq<System>, inputs: seq<Input>, i: nat, id: EventId)
    requires Run(states, inputs) && i < |inputs|
    ensures Orphan(states[i + 1].core, id) && !Orphan(states[i].core, id) <==>
              && inputs[i].command.AdapterResponse? && inputs[i].command.outcome.NotDelivered?
              && inputs[i].command.outcome.id == id
              && PendingUnlisted(states[i].core, id)
  {
    hide CoreOk, Step, Orphan, PendingUnlisted, Malformed;
    var core, input := states[i].core, inputs[i];
    RunOk(states, inputs, i);
    RunOk(states, inputs, i + 1);
    assert Next(states[i], input, states[i + 1]);
    if id in core.events {
      if !input.command.AdapterEvent? {
        QuietOrphans(core, input.command, input.now, input.freshId, id);
      } else if Malformed(input.command.raw) {
        DroppedOrphans(core, input.command.raw, input.now, input.freshId, id);
      } else {
        EventOrphans(core, input.command.raw, input.now, input.freshId, id);
      }
    } else {
      UnknownNeither(core, id);
      if input.command.AdapterEvent? && !Malformed(input.command.raw) && id == input.freshId {
        NewEventOrphans(core, input.command.raw, input.now, input.freshId);
      } else {
        StaysUnknown(core, input, id);
        UnknownNeither(states[i + 1].core, id);
      }
    }
  }

  lemma UnknownNeither(core: Core, id: EventId)
    requires id !in core.events
    ensures !Orphan(core, id) && !PendingUnlisted(core, id)
  {
  }

  lemma StaysUnknown(core: Core, input: Input, id: EventId)
    requires CoreOk(core) && input.freshId !in core.events && id !in core.events
    requires input.command.AdapterEvent? && !Malformed(input.command.raw) ==> id != input.freshId
    ensures id !in Step(core, input.command, input.now, input.freshId).core.events
  {
    hide CoreOk, Step, MakeEvent, MakeEntry, Malformed, Observed, Displaced;
    KeysAgree(core);
    if input.command.AdapterEvent? {
      if Malformed(input.command.raw) {
        DroppedFrame(core, input.command.raw, input.now, input.freshId);
      } else {
        EventStepEntries(core, input.command.raw, input.now, input.freshId);
      }
    } else {
      QuietFrame(core, input.command, input.now, input.freshId);
    }
  }

  /** A pending request that is unlisted and live was spared by an earlier event. */
  lemma PendingUnlistedWasSpared(states: seq<System>, inputs: seq<Input>, i: nat, id: EventId)
    requires Run(states, inputs) && i < |states| && PendingUnlisted(states[i].core, id)
    ensures id in SparedSoFar(states, inputs, i)
  {
    hide SparedBy, CoreOk, ListedRequest;
    TrackerQueueAgreement(states, inputs, i, id);
  }
}
