/** The two-phase delivery of responses: the core, the bounded channel to the adapter loop, and the
    outcomes on their way back. The adapter loop answers every response it takes exactly once. */
module Delivery {
  import opened Types
  import opened PriorityQueues
  import opened Tracker
  import opened LogStores
  import opened CoreMachine
  import opened Coherence

  // ---- what a step does to resolutions ------------------------------------------------------------

  /** The same events, with the same resolutions, and the same channel. */
  ghost predicate SameResolutions(a: Core, b: Core) {
    && b.responder == a.responder
    && a.entries.Keys == b.entries.Keys
    && forall id :: id in a.entries ==> b.entries[id].resolution == a.entries[id].resolution
  }

  /** The same events, superseded or not as before. */
  ghost predicate SameSupersession(a: Core, b: Core) {
    && b.events == a.events && b.thresholds == a.thresholds && b.open == a.open && b.nextSeq == a.nextSeq
    && a.entries.Keys == b.entries.Keys
    && forall id :: id in a.entries ==> b.entries[id].superseded == a.entries[id].superseded
  }

  lemma UpdateScoreResolutions(p: Pipe, id: EventId, now: Time)
    ensures SameResolutions(p.core, UpdateScore(p, id, now).core)
    ensures SameSupersession(p.core, UpdateScore(p, id, now).core)
  {
    hide Rescored;
    if id in p.core.entries {
      RescoredResolution(p.core.entries[id], p.core.events, now);
    }
  }

  lemma RescoredResolution(e: QueueEntry, events: Events, now: Time)
    ensures Rescored(e, events, now).resolution == e.resolution && Rescored(e, events, now).superseded == e.superseded
  {
  }

  lemma EscalateOneResolutions(p: Pipe, action: EscalationAction, now: Time)
    ensures SameResolutions(p.core, EscalateOne(p, action, now).core)
    ensures SameSupersession(p.core, EscalateOne(p, action, now).core)
  {
    hide UpdateScore;
    var id := action.eventId;
    if id in p.core.entries && p.core.entries[id].escalationLevel != action.level {
      var raised := p.core.entries[id].(escalationLevel := action.level);
      var counted := p.(core := p.core.(metrics := p.core.metrics.(escalations := p.core.metrics.escalations + 1)));
      UpdateScoreResolutions(counted.(core := counted.core.(entries := p.core.entries[id := raised])), id, now);
    }
  }

  lemma {:induction false} EscalateAllResolutions(p: Pipe, actions: seq<EscalationAction>, now: Time)
    ensures SameResolutions(p.core, EscalateAll(p, actions, now).core)
    ensures SameSupersession(p.core, EscalateAll(p, actions, now).core)
  {
    hide EscalateOne;
    if actions != [] {
      EscalateAllResolutions(p, actions[..|actions| - 1], now);
      EscalateOneResolutions(EscalateAll(p, actions[..|actions| - 1], now), actions[|actions| - 1], now);
    }
  }

  lemma TickResolutions(p: Pipe, now: Time)
    ensures SameResolutions(p.core, TickStep(p, now).core)
    ensures var q := TickStep(p, now).core;
            && SameSupersession(p.core.(open := q.open), q)
            && q.open == TickedTasks(p.core.open, p.core.thresholds, now)
  {
    hide EscalateAll, TickActions, TickedTasks, RescoreUpdates, Rescored, ScorePushes;
    var rescored := RescoreStep(p, now);
    forall id | id in p.core.entries
      ensures rescored.core.entries[id].resolution == p.core.entries[id].resolution
      ensures rescored.core.entries[id].superseded == p.core.entries[id].superseded
    {
      RescoredResolution(p.core.entries[id], p.core.events, now);
    }
    EscalateAllResolutions(
      rescored.(core := rescored.core.(open := TickedTasks(p.core.open, p.core.thresholds, now))),
      TickActions(p.core.open, p.core.thresholds, now), now);
  }

  lemma {:induction false} SupersedeResolutions(p: Pipe, ids: seq<EventId>)
    ensures SameResolutions(p.core, SupersedeAll(p, ids).core)
  {
    if ids != [] {
      SupersedeResolutions(p, ids[..|ids| - 1]);
    }
  }

  /** A new event brings at most one unresolved request, its own. */
  lemma EventResolutions(p: Pipe, raw: RawEvent, now: Time, id: EventId)
    requires id !in p.core.entries
    ensures var q := EventStep(p, raw, now, id).core;
            && q.responder == p.core.responder
            && (forall k :: k in p.core.entries ==> k in q.entries && q.entries[k].resolution == p.core.entries[k].resolution)
            && (forall k :: k in q.entries && k !in p.core.entries ==>
                  q.entries[k].resolution == None || q.entries[k].resolution == Some(Unresolved))
  {
    hide Observed, MakeEvent, MakeLogs, MakeMetrics, Malformed;
    if !Malformed(raw) {
      var event := MakeEvent(p.core, raw, now, id);
      var observed := p.(core := Processed(p.core, raw, now, id).(open := Observed(p.core.open, event).0));
      SupersedeResolutions(observed, Displaced(p.core, event));
    }
  }

  lemma SettleResolutions(p: Pipe, id: EventId, resolution: Resolution, now: Time)
    requires id in p.core.entries && p.core.entries[id].resolution == Some(PendingDelivery)
    ensures var q := Settle(p, id, resolution, now).core;
            && q.responder == p.core.responder && q.entries.Keys == p.core.entries.Keys
            && q.entries[id].resolution == Some(resolution) && SameSupersession(p.core, q)
            && forall k :: k in p.core.entries && k != id ==> q.entries[k].resolution == p.core.entries[k].resolution
  {
    hide UpdateScore;
    var e := p.core.entries[id].(resolution := Some(resolution));
    UpdateScoreResolutions(p.(core := p.core.(entries := p.core.entries[id := e])), id, now);
  }

  lemma AcceptResolutions(p: Pipe, client: ClientId, id: EventId, decision: Decision, response: RequestResponse, now: Time)
    requires id in p.core.entries
    ensures var q := AcceptResponse(p, client, id, decision, response, now).core;
            && q.responder == p.core.responder && q.entries.Keys == p.core.entries.Keys
            && q.entries[id].resolution == Some(PendingDelivery) && SameSupersession(p.core, q)
            && forall k :: k in p.core.entries && k != id ==> q.entries[k].resolution == p.core.entries[k].resolution
  {
    hide UpdateScore, ResponseText, PinnedAppended;
    var e := p.core.entries[id].(resolution := Some(PendingDelivery));
    UpdateScoreResolutions(p.(core := p.core.(entries := p.core.entries[id := e],
                                              metrics := p.core.metrics.(responses := p.core.metrics.responses + 1))),
                           id, now);
  }

  /** What answering a request leads to: refused unless it is unresolved; with a channel that accepts
      the command the request is pending and exactly that command was added; with a channel that is
      full or closed it is unresolved again, nothing was added and the client is told; and without a
      channel it takes the decision at once. */
  lemma RespondResolutions(p: Pipe, client: ClientId, requestId: Option<string>, id: EventId,
                           decision: Decision, response: RequestResponse, now: Time)
    ensures SameSupersession(p.core, RespondStep(p, client, requestId, id, decision, response, now).core)
    ensures var q := RespondStep(p, client, requestId, id, decision, response, now);
            if id !in p.core.entries || p.core.entries[id].resolution != Some(Unresolved) then
              q.core == p.core && |q.out| == |p.out| + 1 && q.out[|p.out|].ToClient? &&
              q.out[|p.out|].message.body.CommandResult? && q.out[|p.out|].message.body.error.Some?
            else
              && q.core.entries.Keys == p.core.entries.Keys
              && (forall k :: k in p.core.entries && k != id ==> q.core.entries[k].resolution == p.core.entries[k].resolution)
              && match p.core.responder
                 case None => q.core.responder == None && q.core.entries[id].resolution == Some(ResolutionOf(decision))
                 case Some(ch) =>
                   if Accepts(ch) then
                     && q.core.responder == Some(Sent(ch, CommandFor(p.core, id, decision, response, now)))
                     && q.core.entries[id].resolution == Some(PendingDelivery)
                   else
                     && q.core.responder == p.core.responder && q.core.entries[id].resolution == Some(Unresolved)
                     && q.out[|q.out| - 1] == ToClient(client, Message(requestId, CommandResult(Some(DeliveryFailed))))
  {
    hide AcceptResponse, Settle, CommandFor, Accepts;
    if id in p.core.entries && p.core.entries[id].resolution == Some(Unresolved) {
      AcceptResolutions(p, client, id, decision, response, now);
      var accepted := AcceptResponse(p, client, id, decision, response, now);
      SettleResolutions(accepted, id, if p.core.responder.None? then ResolutionOf(decision) else Unresolved, now);
    }
  }

  lemma DetailsResolutions(p: Pipe, client: ClientId, requestId: Option<string>, id: EventId, now: Time)
    requires WellKeyed(p.core.entries)
    ensures SameResolutions(p.core, DetailsStep(p, client, requestId, id, now).core)
    ensures SameSupersession(p.core, DetailsStep(p, client, requestId, id, now).core)
  {
    hide UpdateScore, Acked, StateOf;
    if id in p.core.entries {
      AckKeeps(p.core.entries[id]);
      var e := Acked(p.core.entries[id]);
      var counted := p.(core := p.core.(metrics := p.core.metrics.(detailRefetches := p.core.metrics.detailRefetches + 1)));
      UpdateScoreResolutions(Announce(SetEntry(counted, e), StatePush(StateOf(e))), id, now);
    }
  }

  lemma AckResolutions(p: Pipe, client: ClientId, requestId: Option<string>, id: EventId)
    requires WellKeyed(p.core.entries)
    ensures SameResolutions(p.core, AckStep(p, client, requestId, id).core)
    ensures SameSupersession(p.core, AckStep(p, client, requestId, id).core)
  {
    hide Acked, StateOf;
    if id in p.core.entries {
      AckKeeps(p.core.entries[id]);
    }
  }

  lemma AckKeeps(e: QueueEntry)
    ensures Acked(e) == e.(state := Acked(e).state) && DismissedEntry(e) == e.(state := DismissedEntry(e).state)
  {
  }

  lemma DismissResolutions(p: Pipe, client: ClientId, requestId: Option<string>, id: EventId)
    requires WellKeyed(p.core.entries)
    ensures SameResolutions(p.core, DismissStep(p, client, requestId, id).core)
    ensures SameSupersession(p.core, DismissStep(p, client, requestId, id).core)
  {
    hide DismissedEntry, StateOf;
    if id in p.core.entries {
      AckKeeps(p.core.entries[id]);
    }
  }

  /** Of the client requests, only answering a request touches resolutions, and only answering and
      starting a task touch the channel. */
  lemma OtherRequestResolutions(p: Pipe, client: ClientId, requestId: Option<string>, request: ClientRequest, now: Time)
    requires WellKeyed(p.core.entries) && !request.Respond? && !request.StartTask?
    ensures SameResolutions(p.core, ClientStep(p, client, requestId, request, now).core)
    ensures SameSupersession(p.core, ClientStep(p, client, requestId, request, now).core)
  {
    hide DetailsStep, AckStep, DismissStep, EventLogs;
    match request
    case GetEventDetails(id) => DetailsResolutions(p, client, requestId, id, now);
    case Ack(id) => AckResolutions(p, client, requestId, id);
    case Dismiss(id) => DismissResolutions(p, client, requestId, id);
    case _ =>
  }

  /** A prompt reaches the channel exactly if there is one with room; otherwise it is gone. */
  lemma PromptReachesChannel(core: Core, client: ClientId, requestId: Option<string>, prompt: string,
                             agentId: Option<AgentId>, now: Time, id: EventId)
    ensures var q := Step(core, FromClient(client, requestId, StartTask(prompt, agentId)), now, id).core;
            if core.responder.Some? && Accepts(core.responder.value)
            then q.responder == Some(Sent(core.responder.value, StartTaskCommand(prompt, agentId, now)))
            else q.responder == core.responder
  {
    hide LogPrompt, Lines, LogAppended;
  }

  /** Nobody can tell: whatever the channel, full, closed or absent, the prompt is logged, announced to every
      client and confirmed to its own in the same way, and nothing but the channel differs afterwards. */
  lemma PromptLossInvisible(core: Core, other: Option<Channel>, client: ClientId, requestId: Option<string>, prompt: string,
                            agentId: Option<AgentId>, now: Time, id: EventId)
    ensures var command := FromClient(client, requestId, StartTask(prompt, agentId));
            var p, q := Step(core, command, now, id), Step(core.(responder := other), command, now, id);
            && p.out == q.out
            && p.out == [ToAll(StartTaskPush(prompt)), ToClient(client, Message(requestId, CommandResult(None)))]
            && p.core.(responder := q.core.responder) == q.core
  {
    hide LogPrompt, Lines, LogAppended;
  }

  // ---- the composed protocol ------------------------------------------------------------------------

  /** `answers` records, for each request, the decision most recently accepted from a human. */
  datatype World = World(core: Core, returning: seq<AdapterOutcome>, answers: map<EventId, Decision>)

  datatype Action =
    | CoreStep(command: Command, now: Time, freshId: EventId)
    | AdapterTakes(success: bool, reason: string)
    | OutcomeArrives(k: nat, now: Time, freshId: EventId)

  /** The core accepts this response. */
  ghost predicate AcceptedResponse(core: Core, command: Command) {
    && command.FromClient? && command.request.Respond?
    && command.request.id in core.entries && core.entries[command.request.id].resolution == Some(Unresolved)
  }

  function OutcomeOf(command: AdapterCommand, success: bool, reason: string): AdapterOutcome
    requires command.RespondCommand?
  {
    if success then Delivered(command.id, command.decision) else NotDelivered(command.id, reason)
  }

  function Without(outcomes: seq<AdapterOutcome>, k: nat): seq<AdapterOutcome>
    requires k < |outcomes|
  {
    outcomes[..k] + outcomes[k + 1..]
  }

  /** One step of the core, the adapter or the way back. A command that was taken is answered once, by the
      adapter or by the attached client that owns the task; outcomes come back in any order, if ever. */
  ghost predicate WorldNext(w: World, action: Action, w': World) {
    match action
    case CoreStep(command, now, id) =>
      && !command.AdapterResponse? && id !in w.core.events
      && w' == World(Step(w.core, command, now, id).core, w.returning,
                     if AcceptedResponse(w.core, command)
                     then w.answers[command.request.id := command.request.decision] else w.answers)
    case AdapterTakes(success, reason) =>
      && w.core.responder.Some? && w.core.responder.value.queue != []
      && var ch := w.core.responder.value;
         var rest := Some(ch.(queue := ch.queue[1..]));
         && w' == World(w.core.(responder := rest),
                        if ch.queue[0].RespondCommand?
                        then w.returning + [OutcomeOf(ch.queue[0], success, reason)] else w.returning,
                        w.answers)
    case OutcomeArrives(k, now, id) =>
      && k < |w.returning| && id !in w.core.events
      && w' == World(Step(w.core, AdapterResponse(w.returning[k]), now, id).core, Without(w.returning, k), w.answers)
  }

  function IdOf(command: AdapterCommand): multiset<EventId> {
    if command.RespondCommand? then multiset{command.id} else multiset{}
  }

  function CommandsFor(queue: seq<AdapterCommand>): multiset<EventId> {
    if queue == [] then multiset{} else CommandsFor(queue[..|queue| - 1]) + IdOf(queue[|queue| - 1])
  }

  function OutcomesFor(outcomes: seq<AdapterOutcome>): multiset<EventId> {
    if outcomes == [] then multiset{} else OutcomesFor(outcomes[..|outcomes| - 1]) + multiset{outcomes[|outcomes| - 1].id}
  }

  lemma {:induction false} CommandsHead(queue: seq<AdapterCommand>)
    requires queue != []
    ensures CommandsFor(queue) == IdOf(queue[0]) + CommandsFor(queue[1..])
  {
    hide IdOf;
    if |queue| > 1 {
      var init, last := queue[..|queue| - 1], queue[|queue| - 1];
      CommandsHead(init);
      assert queue[1..][..|queue[1..]| - 1] == init[1..] && init[0] == queue[0];
      SumAssociates(IdOf(queue[0]), CommandsFor(init[1..]), IdOf(last));
    }
  }

  lemma SumAssociates(a: multiset<EventId>, b: multiset<EventId>, c: multiset<EventId>)
    ensures (a + b) + c == a + (b + c)
  {
  }

  lemma {:induction false} OutcomesAt(outcomes: seq<AdapterOutcome>, k: nat)
    requires k < |outcomes|
    ensures OutcomesFor(outcomes) == multiset{outcomes[k].id} + OutcomesFor(Without(outcomes, k))
  {
    var init, last := outcomes[..|outcomes| - 1], outcomes[|outcomes| - 1];
    if k == |init| {
      assert Without(outcomes, k) == init;
    } else {
      OutcomesAt(init, k);
      var rest := Without(outcomes, k);
      assert rest[..|rest| - 1] == Without(init, k) && rest[|rest| - 1] == last;
      SumAssociates(multiset{outcomes[k].id}, OutcomesFor(Without(init, k)), multiset{last.id});
    }
  }

  function QueueOf(core: Core): seq<AdapterCommand> {
    if core.responder.Some? then core.responder.value.queue else []
  }

  function InFlight(w: World): multiset<EventId> {
    CommandsFor(QueueOf(w.core)) + OutcomesFor(w.returning)
  }

  ghost predicate Waiting(entries: Entries, id: EventId) {
    id in entries && entries[id].resolution == Some(PendingDelivery)
  }

  ghost predicate IsPending(core: Core, id: EventId) {
    Waiting(core.entries, id)
  }

  ghost predicate Settled(entries: Entries, id: EventId) {
    id in entries && (entries[id].resolution == Some(Approved) || entries[id].resolution == Some(Denied))
  }

  ghost predicate CommandAgrees(command: AdapterCommand, answers: map<EventId, Decision>) {
    command.RespondCommand? ==> command.id in answers && answers[command.id] == command.decision
  }

  ghost predicate OutcomeAgrees(outcome: AdapterOutcome, answers: map<EventId, Decision>) {
    outcome.Delivered? ==> outcome.id in answers && answers[outcome.id] == outcome.decision
  }

  /** A request is pending exactly when one command or outcome for it is in flight. */
  ghost predicate CountsOk(queue: seq<AdapterCommand>, returning: seq<AdapterOutcome>, entries: Entries) {
    forall id :: CommandsFor(queue)[id] + OutcomesFor(returning)[id] == if Waiting(entries, id) then 1 else 0
  }

  /** What is in flight carries the human's latest decision. */
  ghost predicate TransitOk(queue: seq<AdapterCommand>, returning: seq<AdapterOutcome>, answers: map<EventId, Decision>) {
    && (forall command :: command in queue ==> CommandAgrees(command, answers))
    && (forall outcome :: outcome in returning ==> OutcomeAgrees(outcome, answers))
  }

  /** So does every settled request. */
  ghost predicate SettledOk(entries: Entries, answers: map<EventId, Decision>) {
    forall id :: Settled(entries, id) ==> id in answers && entries[id].resolution == Some(ResolutionOf(answers[id]))
  }

  ghost predicate WorldOk(w: World) {
    && CoreOk(w.core)
    && CountsOk(QueueOf(w.core), w.returning, w.core.entries)
    && TransitOk(QueueOf(w.core), w.returning, w.answers)
    && SettledOk(w.core.entries, w.answers)
  }

  lemma {:induction false} CommandsMember(queue: seq<AdapterCommand>, command: AdapterCommand)
    requires command in queue && command.RespondCommand?
    ensures CommandsFor(queue)[command.id] >= 1
  {
    var last := |queue| - 1;
    assert queue == queue[..last] + [queue[last]];
    if command in queue[..last] {
      CommandsMember(queue[..last], command);
    }
  }

  lemma {:induction false} OutcomesMember(outcomes: seq<AdapterOutcome>, outcome: AdapterOutcome)
    requires outcome in outcomes
    ensures OutcomesFor(outcomes)[outcome.id] >= 1
  {
    var last := |outcomes| - 1;
    assert outcomes == outcomes[..last] + [outcomes[last]];
    if outcome in outcomes[..last] {
      OutcomesMember(outcomes[..last], outcome);
    }
  }

  /** Nothing that matters to delivery changed. */
  lemma Unaffected(w: World, w': World)
    requires WorldOk(w) && CoreOk(w'.core) && w'.returning == w.returning && w'.answers == w.answers
    requires var q, q' := QueueOf(w.core), QueueOf(w'.core);
             q' == q || exists c :: q' == q + [c] && !c.RespondCommand?
    requires forall id :: Waiting(w'.core.entries, id) == Waiting(w.core.entries, id)
    requires forall id :: Settled(w'.core.entries, id) ==>
               id in w.core.entries && w'.core.entries[id].resolution == w.core.entries[id].resolution
    ensures WorldOk(w')
  {
    hide CoreOk, Waiting, CommandAgrees, OutcomeAgrees, CommandsFor, OutcomesFor, QueueOf;
    var q, q' := QueueOf(w.core), QueueOf(w'.core);
    if q' != q {
      var c :| q' == q + [c] && !c.RespondCommand?;
      OneOtherCommand(q, c);
      OnlyResponsesMatter(c, w.answers);
    }
  }

  lemma OneOtherCommand(q: seq<AdapterCommand>, c: AdapterCommand)
    requires !c.RespondCommand?
    ensures CommandsFor(q + [c]) == CommandsFor(q)
  {
    assert (q + [c])[..|q|] == q;
  }

  lemma OnlyResponsesMatter(command: AdapterCommand, answers: map<EventId, Decision>)
    requires !command.RespondCommand?
    ensures CommandAgrees(command, answers)
  {
  }

  lemma KeysAgree(core: Core)
    requires CoreOk(core)
    ensures core.entries.Keys == core.events.Keys && WellKeyed(core.entries)
  {
    CoreOkIsWellKeyed(core);
  }

  lemma StepKeepsCore(core: Core, command: Command, now: Time, id: EventId)
    requires CoreOk(core) && id !in core.events
    ensures CoreOk(Step(core, command, now, id).core)
  {
    StepGood(core, command, now, id, map[], 0, false);
  }

  lemma EventKeepsWorld(w: World, raw: RawEvent, now: Time, id: EventId, w': World)
    requires WorldOk(w) && id !in w.core.events && WorldNext(w, CoreStep(AdapterEvent(raw), now, id), w')
    ensures WorldOk(w')
  {
    hide EventStep, CoreOk, CountsOk, TransitOk, SettledOk, WorldOk;
    assert CoreOk(w.core) by { CoreOfWorld(w); }
    KeysAgree(w.core);
    EventResolutions(Pipe(w.core, []), raw, now, id);
    StepKeepsCore(w.core, AdapterEvent(raw), now, id);
    Unaffected(w, w');
  }

  lemma CoreOfWorld(w: World)
    requires WorldOk(w)
    ensures CoreOk(w.core)
  {
  }

  lemma StartTaskKeepsWorld(w: World, command: Command, now: Time, id: EventId, w': World)
    requires WorldOk(w) && command.FromClient? && command.request.StartTask?
    requires WorldNext(w, CoreStep(command, now, id), w')
    ensures WorldOk(w')
  {
    hide LogPrompt, Lines, CoreOk, CountsOk, TransitOk, SettledOk, WorldOk;
    assert CoreOk(w.core) by { CoreOfWorld(w); }
    StepKeepsCore(w.core, command, now, id);
    var queue, queue' := QueueOf(w.core), QueueOf(w'.core);
    assert queue' == queue ||
           queue' == queue + [StartTaskCommand(command.request.prompt, command.request.agentId, now)];
    Unaffected(w, w');
  }

  /** One request starts waiting, and one command for it enters the channel. */
  lemma CommandEnters(queue: seq<AdapterCommand>, returning: seq<AdapterOutcome>, entries: Entries, entries': Entries,
                      command: AdapterCommand)
    requires CountsOk(queue, returning, entries)
    requires command.RespondCommand? && !Waiting(entries, command.id) && Waiting(entries', command.id)
    requires forall k :: k != command.id ==> Waiting(entries', k) == Waiting(entries, k)
    ensures CountsOk(queue + [command], returning, entries')
  {
    assert (queue + [command])[..|queue|] == queue;
  }

  /** With nothing in flight for a request, its recorded answer may be replaced. */
  lemma AnswerReplaced(queue: seq<AdapterCommand>, returning: seq<AdapterOutcome>, entries: Entries,
                       answers: map<EventId, Decision>, id: EventId, decision: Decision)
    requires CountsOk(queue, returning, entries) && TransitOk(queue, returning, answers)
    requires !Waiting(entries, id)
    ensures TransitOk(queue, returning, answers[id := decision])
  {
    assert CommandsFor(queue)[id] == 0 && OutcomesFor(returning)[id] == 0;
    forall command | command in queue ensures CommandAgrees(command, answers[id := decision]) {
      assert CommandAgrees(command, answers);
      if command.RespondCommand? {
        CommandsMember(queue, command);
      }
    }
    forall outcome | outcome in returning ensures OutcomeAgrees(outcome, answers[id := decision]) {
      assert OutcomeAgrees(outcome, answers);
      OutcomesMember(returning, outcome);
    }
  }

  lemma RespondKeepsWorld(w: World, command: Command, now: Time, id: EventId, w': World)
    requires WorldOk(w) && AcceptedResponse(w.core, command) && WorldNext(w, CoreStep(command, now, id), w')
    ensures WorldOk(w')
  {
    hide RespondStep, CoreOk, CountsOk, TransitOk, SettledOk, Accepts, FromRespondRequest;
    var k, decision := command.request.id, command.request.decision;
    var response := FromRespondRequest(decision, command.request.selected, command.request.text);
    RespondResolutions(Pipe(w.core, []), command.client, command.requestId, k, decision, response, now);
    StepKeepsCore(w.core, command, now, id);
    AnswerReplaced(QueueOf(w.core), w.returning, w.core.entries, w.answers, k, decision);
    SettledAfterAnswer(w.core.entries, w'.core.entries, w.answers, k, decision);
    var sent := CommandFor(w.core, k, decision, response, now);
    if QueueOf(w'.core) == QueueOf(w.core) {
      SameCounts(QueueOf(w.core), w.returning, w.core.entries, w'.core.entries);
    } else {
      assert QueueOf(w'.core) == QueueOf(w.core) + [sent];
      CommandEnters(QueueOf(w.core), w.returning, w.core.entries, w'.core.entries, sent);
      TransitGrows(QueueOf(w.core), w.returning, w'.answers, sent);
    }
  }

  lemma SettledAfterAnswer(entries: Entries, entries': Entries, answers: map<EventId, Decision>, id: EventId, decision: Decision)
    requires SettledOk(entries, answers) && id in entries && entries'.Keys == entries.Keys
    requires forall k :: k in entries && k != id ==> entries'[k].resolution == entries[k].resolution
    requires entries'[id].resolution in {Some(ResolutionOf(decision)), Some(PendingDelivery), Some(Unresolved)}
    ensures SettledOk(entries', answers[id := decision])
  {
  }

  lemma SameCounts(queue: seq<AdapterCommand>, returning: seq<AdapterOutcome>, entries: Entries, entries': Entries)
    requires CountsOk(queue, returning, entries)
    requires forall k :: Waiting(entries', k) == Waiting(entries, k)
    ensures CountsOk(queue, returning, entries')
  {
  }

  lemma TransitGrows(queue: seq<AdapterCommand>, returning: seq<AdapterOutcome>, answers: map<EventId, Decision>,
                     command: AdapterCommand)
    requires TransitOk(queue, returning, answers) && CommandAgrees(command, answers)
    ensures TransitOk(queue + [command], returning, answers)
  {
  }

  lemma CoreStepKeepsWorld(w: World, command: Command, now: Time, id: EventId, w': World)
    requires WorldOk(w) && WorldNext(w, CoreStep(command, now, id), w')
    ensures WorldOk(w')
  {
    hide CoreOk, CountsOk, TransitOk, SettledOk, TickStep, EventStep, RespondStep, ClientStep, SnapshotBody;
    assert WellKeyed(w.core.entries) by { KeysAgree(w.core); }
    if command.AdapterEvent? {
      EventKeepsWorld(w, command.raw, now, id, w');
    } else if AcceptedResponse(w.core, command) {
      RespondKeepsWorld(w, command, now, id, w');
    } else if command.FromClient? && command.request.StartTask? {
      StartTaskKeepsWorld(w, command, now, id, w');
    } else {
      StepKeepsCore(w.core, command, now, id);
      QuietStep(w.core, command, now, id);
      Unaffected(w, w');
    }
  }

  lemma QuietStep(core: Core, command: Command, now: Time, id: EventId)
    requires WellKeyed(core.entries)
    requires !command.AdapterResponse? && !command.AdapterEvent? && !AcceptedResponse(core, command)
    requires !(command.FromClient? && command.request.StartTask?)
    ensures SameResolutions(core, Step(core, command, now, id).core)
  {
    hide TickStep, RespondStep, FromRespondRequest, LogAppended;
    var p := Pipe(core, []);
    match command
    case Tick => TickResolutions(p, now);
    case FromClient(client, requestId, request) =>
      if request.Respond? {
        RespondResolutions(p, client, requestId, request.id, request.decision,
                           FromRespondRequest(request.decision, request.selected, request.text), now);
      } else {
        OtherRequestResolutions(p, client, requestId, request, now);
      }
    case _ =>
  }

  /** The adapter loop turns one command into one outcome. */
  lemma CommandAnswered(queue: seq<AdapterCommand>, returning: seq<AdapterOutcome>, entries: Entries,
                        answers: map<EventId, Decision>, success: bool, reason: string)
    requires queue != [] && CountsOk(queue, returning, entries) && TransitOk(queue, returning, answers)
    ensures var returning' := if queue[0].RespondCommand?
                              then returning + [OutcomeOf(queue[0], success, reason)] else returning;
            CountsOk(queue[1..], returning', entries) && TransitOk(queue[1..], returning', answers)
  {
    CommandsHead(queue);
    assert CommandAgrees(queue[0], answers);
    if queue[0].RespondCommand? {
      assert (returning + [OutcomeOf(queue[0], success, reason)])[..|returning|] == returning;
    }
  }

  lemma AdapterKeepsWorld(w: World, success: bool, reason: string, w': World)
    requires WorldOk(w) && WorldNext(w, AdapterTakes(success, reason), w')
    ensures WorldOk(w')
  {
    hide CoreOk, CountsOk, TransitOk, SettledOk;
    CommandAnswered(QueueOf(w.core), w.returning, w.core.entries, w.answers, success, reason);
    ResponderReplaced(w.core, w'.core);
  }

  lemma ResponderReplaced(core: Core, core': Core)
    requires CoreOk(core) && core' == core.(responder := core'.responder)
    ensures CoreOk(core')
  {
  }

  /** An outcome on its way belongs to a waiting request, agrees with its answer, and is the only one. */
  lemma OutcomeLeaves(queue: seq<AdapterCommand>, returning: seq<AdapterOutcome>, k: nat, entries: Entries,
                      entries': Entries, answers: map<EventId, Decision>)
    requires k < |returning| && CountsOk(queue, returning, entries) && TransitOk(queue, returning, answers)
    requires !Waiting(entries', returning[k].id)
    requires forall id :: id != returning[k].id ==> Waiting(entries', id) == Waiting(entries, id)
    ensures CountsOk(queue, Without(returning, k), entries') && TransitOk(queue, Without(returning, k), answers)
  {
    hide CommandsFor, OutcomesFor, CommandAgrees, OutcomeAgrees;
    OutcomeIsAwaited(queue, returning, k, entries);
    OutcomesAt(returning, k);
    forall outcome | outcome in Without(returning, k) ensures outcome in returning {
    }
  }

  lemma OutcomeIsAwaited(queue: seq<AdapterCommand>, returning: seq<AdapterOutcome>, k: nat, entries: Entries)
    requires k < |returning| && CountsOk(queue, returning, entries)
    ensures Waiting(entries, returning[k].id)
  {
    hide CommandsFor, OutcomesFor;
    OutcomesAt(returning, k);
  }

  lemma OutcomeKeepsWorld(w: World, k: nat, now: Time, id: EventId, w': World)
    requires WorldOk(w) && WorldNext(w, OutcomeArrives(k, now, id), w')
    ensures WorldOk(w')
  {
    hide CoreOk, Settle, CountsOk, TransitOk;
    var outcome := w.returning[k];
    StepKeepsCore(w.core, AdapterResponse(outcome), now, id);
    OutcomeIsAwaited(QueueOf(w.core), w.returning, k, w.core.entries);
    assert OutcomeAgrees(outcome, w.answers) by { TransitAt(QueueOf(w.core), w.returning, k, w.answers); }
    SettleResolutions(Pipe(w.core, []), outcome.id,
                      if outcome.Delivered? then ResolutionOf(outcome.decision) else Unresolved, now);
    OutcomeLeaves(QueueOf(w.core), w.returning, k, w.core.entries, w'.core.entries, w.answers);
  }

  lemma TransitAt(queue: seq<AdapterCommand>, returning: seq<AdapterOutcome>, k: nat, answers: map<EventId, Decision>)
    requires k < |returning| && TransitOk(queue, returning, answers)
    ensures OutcomeAgrees(returning[k], answers)
  {
    assert returning[k] in returning;
  }

  /** That a command is answered once matters. A second report about an earlier delivery settles whatever is
      pending for the request with the decision it carries, although the command that carries the human's
      latest decision may still wait in the channel. */
  lemma StrayOutcomeSettles(core: Core, id: EventId, decision: Decision, now: Time, freshId: EventId)
    requires IsPending(core, id)
    ensures var core' := Step(core, AdapterResponse(Delivered(id, decision)), now, freshId).core;
            && id in core'.entries && core'.entries[id].resolution == Some(ResolutionOf(decision))
            && QueueOf(core') == QueueOf(core)
  {
    hide Settle;
    SettleResolutions(Pipe(core, []), id, ResolutionOf(decision), now);
  }

  lemma WorldNextOk(w: World, action: Action, w': World)
    requires WorldOk(w) && WorldNext(w, action, w')
    ensures WorldOk(w')
  {
    hide WorldOk, WorldNext;
    match action
    case CoreStep(command, now, id) => CoreStepKeepsWorld(w, command, now, id, w');
    case AdapterTakes(success, reason) => AdapterKeepsWorld(w, success, reason, w');
    case OutcomeArrives(k, now, id) => OutcomeKeepsWorld(w, k, now, id, w');
  }

  // ---- whole runs -----------------------------------------------------------------------------------

  ghost predicate WorldInitial(w: World) {
    && w.returning == [] && w.answers == map[]
    && exists config, thresholds, responder :: w.core == Fresh0(config, thresholds, responder) && QueueOf(w.core) == []
  }

  ghost predicate WorldRun(worlds: seq<World>, actions: seq<Action>) {
    && |worlds| == |actions| + 1
    && WorldInitial(worlds[0])
    && forall i :: 0 <= i < |actions| ==> WorldNext(worlds[i], actions[i], worlds[i + 1])
  }

  lemma {:induction false} WorldRunOk(worlds: seq<World>, actions: seq<Action>, i: nat)
    requires WorldRun(worlds, actions) && i < |worlds|
    ensures WorldOk(worlds[i])
  {
    hide WorldNext;
    if i == 0 {
      FirstWorldOk(worlds[0]);
    } else {
      WorldRunOk(worlds, actions, i - 1);
      WorldNextOk(worlds[i - 1], actions[i - 1], worlds[i]);
    }
  }

  lemma FirstWorldOk(w: World)
    requires WorldInitial(w)
    ensures WorldOk(w)
  {
  }

  /** At every moment of every run, a request is pending delivery exactly when one command or outcome
      for it is in flight, never more; and an approved or denied request carries the decision the
      human gave last. */
  lemma DeliveryProtocol(worlds: seq<World>, actions: seq<Action>, i: nat, id: EventId)
    requires WorldRun(worlds, actions) && i < |worlds|
    ensures var w := worlds[i];
            && InFlight(w)[id] <= 1
            && (InFlight(w)[id] == 1 <==> IsPending(w.core, id))
            && (id in w.core.entries && w.core.entries[id].resolution == Some(Approved) ==> id in w.answers && w.answers[id] == Approve)
            && (id in w.core.entries && w.core.entries[id].resolution == Some(Denied) ==> id in w.answers && w.answers[id] == Deny)
  {
    WorldRunOk(worlds, actions, i);
  }

  /** Every step moves every resolution along the documented lifecycle; without an adapter channel
      an answered request passes through pending delivery within the step. In particular approved
      and denied requests never change again. */
  lemma LifecycleFollowed(w: World, action: Action, w': World, id: EventId)
    requires WorldOk(w) && WorldNext(w, action, w') && id in w.core.entries
    ensures id in w'.core.entries
    ensures var before, after := w.core.entries[id].resolution, w'.core.entries[id].resolution;
            || LifecycleEdge(before, after)
            || (w.core.responder == None && LifecycleEdge(before, Some(PendingDelivery)) && LifecycleEdge(Some(PendingDelivery), after))
    ensures var before := w.core.entries[id].resolution;
            before == Some(Approved) || before == Some(Denied) ==> w'.core.entries[id].resolution == before
  {
    hide CoreOk, CountsOk, TransitOk, SettledOk, TickStep, EventStep, RespondStep, Settle, SnapshotBody, LogPrompt, Lines,
      Accepts, FromRespondRequest, DetailsStep;
    assert w.core.entries.Keys == w.core.events.Keys && WellKeyed(w.core.entries) by { KeysAgree(w.core); }
    match action
    case AdapterTakes(success, reason) =>
    case OutcomeArrives(k, now, newId) =>
      var outcome := w.returning[k];
      OutcomeIsAwaited(QueueOf(w.core), w.returning, k, w.core.entries);
      SettleResolutions(Pipe(w.core, []), outcome.id,
                        if outcome.Delivered? then ResolutionOf(outcome.decision) else Unresolved, now);
    case CoreStep(command, now, newId) =>
      var p := Pipe(w.core, []);
      if command.AdapterEvent? {
        EventResolutions(p, command.raw, now, newId);
      } else if command.FromClient? && command.request.Respond? {
        var r := command.request;
        RespondResolutions(p, command.client, command.requestId, r.id, r.decision,
                           FromRespondRequest(r.decision, r.selected, r.text), now);
      } else if !(command.FromClient? && command.request.StartTask?) {
        QuietStep(w.core, command, now, newId);
      }
  }
}
