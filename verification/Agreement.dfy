/** The tracker and the queue tell the same story: what the tracker lists is what has not been
    superseded. */
module Agreement {
  import opened Types
  import opened PriorityQueues
  import opened Tracker
  import opened LogStores
  import opened CoreMachine
  import opened Coherence
  import opened Clients
  import opened Delivery

  ghost predicate ListedWorking(open: OpenTasks, event: Event) {
    TrackedTask(event).Some? && TrackedTask(event).value in open && event.eventId in open[TrackedTask(event).value].working
  }

  ghost predicate ListedRequest(open: OpenTasks, event: Event) {
    TrackedTask(event).Some? && TrackedTask(event).value in open && event.eventId in open[TrackedTask(event).value].requests
  }

  /** `spared` holds the requests that were already answered, or being answered, when a newer request
      or the end of their task displaced them. */
  ghost predicate EventAgrees(core: Core, id: EventId, spared: set<EventId>)
    requires id in core.events && id in core.entries
  {
    var event, entry := core.events[id], core.entries[id];
    if TrackedTask(event).None? then !entry.superseded
    else match event.category
      case Working => !entry.superseded <==> ListedWorking(core.open, event)
      case Request => && (!entry.superseded <==> ListedRequest(core.open, event) || id in spared)
                      && !(ListedRequest(core.open, event) && id in spared)
      case _ => !entry.superseded
  }

  ghost predicate AgreementOk(core: Core, spared: set<EventId>) {
    && core.entries.Keys == core.events.Keys && spared <= core.events.Keys
    && forall id :: id in core.events ==> EventAgrees(core, id, spared)
  }

  /** The displaced requests that superseding leaves alone. */
  ghost function SparedBy(core: Core, input: Input): set<EventId> {
    if input.command.AdapterEvent? && !Malformed(input.command.raw) then
      var event := MakeEvent(core, input.command.raw, input.now, input.freshId);
      set id | id in Displaced(core, event) && id in core.entries && Spared(core.entries[id])
    else {}
  }

  /** Superseding marks exactly the listed entries that are not spared. */
  lemma {:induction false} SupersedeAllMarks(p: Pipe, ids: seq<EventId>)
    ensures var q := SupersedeAll(p, ids).core;
            && q == p.core.(entries := q.entries)
            && q.entries.Keys == p.core.entries.Keys
            && forall id :: id in p.core.entries ==>
                 q.entries[id] == if id in ids then Superseded(p.core.entries[id]) else p.core.entries[id]
  {
    if ids != [] {
      SupersedeAllMarks(p, ids[..|ids| - 1]);
      assert ids == ids[..|ids| - 1] + [ids[|ids| - 1]];
    }
  }

  lemma QuietKeepsAgreement(core: Core, core': Core, spared: set<EventId>)
    requires AgreementOk(core, spared)
    requires SameSupersession(core.(open := core'.open), core')
    requires core'.open.Keys == core.open.Keys
    requires forall t :: t in core.open ==>
               core'.open[t].working == core.open[t].working && core'.open[t].requests == core.open[t].requests
    ensures AgreementOk(core', spared)
  {
    forall id | id in core'.events ensures EventAgrees(core', id, spared) {
      assert EventAgrees(core, id, spared);
    }
  }

  /** What a step that brings no event does to the tracker and to supersession. */
  lemma QuietFrame(core: Core, command: Command, now: Time, id: EventId)
    requires WellKeyed(core.entries) && !command.AdapterEvent?
    ensures var q := Step(core, command, now, id).core;
            && SameSupersession(core.(open := q.open), q)
            && q.open == if command.Tick? then TickedTasks(core.open, core.thresholds, now) else core.open
  {
    hide TickStep, RespondStep, FromRespondRequest, LogAppended, Settle, LogPrompt, Lines, SnapshotBody, TickedTasks;
    var p := Pipe(core, []);
    match command
    case Tick => TickResolutions(p, now);
    case AdapterResponse(outcome) =>
      if outcome.id in core.entries && core.entries[outcome.id].resolution == Some(PendingDelivery) {
        SettleResolutions(p, outcome.id, if outcome.Delivered? then ResolutionOf(outcome.decision) else Unresolved, now);
      } else {
        SettleNothing(p, outcome, now);
      }
    case FromClient(client, requestId, request) =>
      if request.Respond? {
        RespondResolutions(p, client, requestId, request.id, request.decision,
                           FromRespondRequest(request.decision, request.selected, request.text), now);
      } else if !request.StartTask? {
        OtherRequestResolutions(p, client, requestId, request, now);
      }
    case _ =>
  }

  lemma SettleNothing(p: Pipe, outcome: AdapterOutcome, now: Time)
    requires outcome.id !in p.core.entries || p.core.entries[outcome.id].resolution != Some(PendingDelivery)
    ensures OutcomeStep(p, outcome, now) == p
  {
  }

  /** Only the new event's own task changes in the tracker. */
  lemma ObservedElsewhere(open: OpenTasks, event: Event, other: Event)
    requires other.eventId != event.eventId
    ensures var open' := Observed(open, event).0;
            && (TrackedTask(other) != TrackedTask(event) || TrackedTask(event).None? ==>
                  ListedWorking(open', other) == ListedWorking(open, other) && ListedRequest(open', other) == ListedRequest(open, other))
            && (TrackedTask(other) == TrackedTask(event) && TrackedTask(event).Some? ==>
                  && (ListedWorking(open', other) <==>
                        ListedWorking(open, other) && (event.category == Working || event.category == Request))
                  && (ListedRequest(open', other) <==> ListedRequest(open, other) && event.category == Working))
  {
  }

  /** Displaced are exactly the listed events of the same task: all of them when the task closes,
      its request when a newer one arrives. */
  lemma DisplacedExactly(core: Core, event: Event, id: EventId)
    requires TrackerOk(core) && id in core.events && core.events[id].eventId == id && event.eventId !in core.events
    ensures id in Displaced(core, event) <==>
              && TrackedTask(event).Some? && TrackedTask(core.events[id]) == TrackedTask(event)
              && match event.category
                 case Working => false
                 case Request => ListedRequest(core.open, core.events[id])
                 case _ => ListedWorking(core.open, core.events[id]) || ListedRequest(core.open, core.events[id])
  {
    if TrackedTask(event).Some? && TrackedTask(event).value in core.open {
      assert TaskRefsOk(TrackedTask(event).value, core.open[TrackedTask(event).value], core.events);
    }
  }

  lemma OldEventAgrees(core: Core, event: Event, e': QueueEntry, id: EventId, spared: set<EventId>, displaced: set<EventId>)
    requires TrackerOk(core) && AgreementOk(core, spared) && id in core.events && event.eventId !in core.events
    requires EntryOk(core.entries[id], core.events[id]) && core.events[id].eventId == id
    requires e' == if id in Displaced(core, event) then Superseded(core.entries[id]) else core.entries[id]
    requires id in displaced <==> id in Displaced(core, event) && Spared(core.entries[id])
    ensures var open' := Observed(core.open, event).0;
            var old_ := core.events[id];
            if TrackedTask(old_).None? then !e'.superseded
            else match old_.category
              case Working => !e'.superseded <==> ListedWorking(open', old_)
              case Request => && (!e'.superseded <==> ListedRequest(open', old_) || id in spared + displaced)
                              && !(ListedRequest(open', old_) && id in spared + displaced)
              case _ => !e'.superseded
  {
    hide Observed, Displaced, WorkingScore;
    assert EventAgrees(core, id, spared);
    ObservedElsewhere(core.open, event, core.events[id]);
    DisplacedExactly(core, event, id);
    WorkingNotRequest(core, id);
  }

  /** A task lists an event either as working or as a request, by its category. */
  lemma WorkingNotRequest(core: Core, id: EventId)
    requires TrackerOk(core) && id in core.events && core.events[id].eventId == id
    ensures ListedWorking(core.open, core.events[id]) ==> core.events[id].category == Working
    ensures ListedRequest(core.open, core.events[id]) ==> core.events[id].category == Request
  {
  }

  lemma NewEventAgrees(core: Core, event: Event)
    requires event.eventId !in core.events && TrackerOk(core)
    ensures var open' := Observed(core.open, event).0;
            && (ListedWorking(open', event) <==> TrackedTask(event).Some? && event.category == Working)
            && (ListedRequest(open', event) <==> TrackedTask(event).Some? && event.category == Request)
  {
    if TrackedTask(event).Some? && TrackedTask(event).value in core.open {
      assert TaskRefsOk(TrackedTask(event).value, core.open[TrackedTask(event).value], core.events);
    }
  }

  lemma EventStepAgreement(core: Core, raw: RawEvent, now: Time, id: EventId, spared: set<EventId>)
    requires CoreOk(core) && AgreementOk(core, spared) && id !in core.events && !Malformed(raw)
    ensures AgreementOk(Step(core, AdapterEvent(raw), now, id).core,
                        spared + SparedBy(core, Input(AdapterEvent(raw), now, id)))
  {
    hide Step, Malformed, MakeEvent, MakeEntry, EntryOk, TaskRefsOk, Observed, Displaced, Spared, Superseded;
    var event := MakeEvent(core, raw, now, id);
    EventIdOfMade(core, raw, now, id);
    EventStepEntries(core, raw, now, id);
    var core' := Step(core, AdapterEvent(raw), now, id).core;
    var displaced := SparedBy(core, Input(AdapterEvent(raw), now, id));
    DisplacedKnown(core, event);
    forall k | k in core'.events ensures EventAgrees(core', k, spared + displaced) {
      if k == id {
        NewEventAgrees(core, event);
      } else {
        OldEventAgrees(core, event, core'.entries[k], k, spared, displaced);
      }
    }
  }

  /** The queue, the store and the tracker after a well-formed event. */
  lemma EventStepEntries(core: Core, raw: RawEvent, now: Time, id: EventId)
    requires CoreOk(core) && id !in core.events && !Malformed(raw)
    ensures var core', event := Step(core, AdapterEvent(raw), now, id).core, MakeEvent(core, raw, now, id);
            && core'.events == core.events[id := event] && core'.open == Observed(core.open, event).0
            && core'.entries.Keys == core.entries.Keys + {id} == core'.events.Keys
            && core'.entries[id] == MakeEntry(event, now) && !core'.entries[id].superseded
            && forall k :: k in core.entries ==>
                 core'.entries[k] == if k in Displaced(core, event) then Superseded(core.entries[k]) else core.entries[k]
  {
    hide Malformed, MakeEvent, MakeLogs, MakeMetrics, EntryOk, Observed, Displaced, SupersedeAll;
    var event := MakeEvent(core, raw, now, id);
    EventIdOfMade(core, raw, now, id);
    var observed := Pipe(Processed(core, raw, now, id).(open := Observed(core.open, event).0), []);
    SupersedeAllMarks(observed, Displaced(core, event));
    DisplacedKnown(core, event);
  }

  lemma StepAgreement(core: Core, input: Input, spared: set<EventId>)
    requires CoreOk(core) && AgreementOk(core, spared) && input.freshId !in core.events
    ensures AgreementOk(Step(core, input.command, input.now, input.freshId).core, spared + SparedBy(core, input))
  {
    hide Step, CoreOk, AgreementOk;
    if input.command.AdapterEvent? && !Malformed(input.command.raw) {
      EventStepAgreement(core, input.command.raw, input.now, input.freshId, spared);
    } else {
      assert spared + SparedBy(core, input) == spared;
      if input.command.AdapterEvent? {
        DroppedFrame(core, input.command.raw, input.now, input.freshId);
      } else {
        KeysAgree(core);
        QuietFrame(core, input.command, input.now, input.freshId);
        TickedLists(core.open, core.thresholds, input.now);
      }
      QuietKeepsAgreement(core, Step(core, input.command, input.now, input.freshId).core, spared);
    }
  }

  lemma DroppedFrame(core: Core, raw: RawEvent, now: Time, id: EventId)
    requires Malformed(raw)
    ensures var q := Step(core, AdapterEvent(raw), now, id).core; q.open == core.open && SameSupersession(core, q)
  {
  }

  lemma TickedLists(open: OpenTasks, thresholds: ThresholdTable, now: Time)
    ensures var ticked := TickedTasks(open, thresholds, now);
            ticked.Keys == open.Keys &&
            forall t :: t in open ==> ticked[t].working == open[t].working && ticked[t].requests == open[t].requests
  {
  }

  // ---- runs -----------------------------------------------------------------------------------------

  ghost function SparedSoFar(states: seq<System>, inputs: seq<Input>, i: nat): set<EventId>
    requires i <= |inputs| <= |states|
  {
    if i == 0 then {} else SparedSoFar(states, inputs, i - 1) + SparedBy(states[i - 1].core, inputs[i - 1])
  }

  lemma {:induction false} RunAgreement(states: seq<System>, inputs: seq<Input>, i: nat)
    requires Run(states, inputs) && i < |states|
    ensures AgreementOk(states[i].core, SparedSoFar(states, inputs, i))
  {
    hide AgreementOk, CoreOk, Step, SparedBy;
    if i == 0 {
      InitialAgreement(states[0]);
    } else {
      RunAgreement(states, inputs, i - 1);
      RunOk(states, inputs, i - 1);
      assert Next(states[i - 1], inputs[i - 1], states[i]);
      StepAgreement(states[i - 1].core, inputs[i - 1], SparedSoFar(states, inputs, i - 1));
    }
  }

  lemma InitialAgreement(s: System)
    requires Initial(s)
    ensures AgreementOk(s.core, {})
  {
  }

  /** At every moment of every run: a tracked Working event is not superseded exactly while its task
      lists it; each open task lists at most one request, and a listed request is not superseded; a
      request no longer listed escaped being superseded only if it was answered, or being answered,
      when it was displaced; and nothing else is ever superseded. */
  lemma TrackerQueueAgreement(states: seq<System>, inputs: seq<Input>, i: nat, id: EventId)
    requires Run(states, inputs) && i < |states| && id in states[i].core.events
    ensures var core := states[i].core;
            var event, spared := core.events[id], SparedSoFar(states, inputs, i);
            && id in core.entries
            && (event.category == Working && TrackedTask(event).Some? ==>
                  (!core.entries[id].superseded <==> ListedWorking(core.open, event)))
            && (event.category == Request && TrackedTask(event).Some? ==>
                  (!core.entries[id].superseded <==> ListedRequest(core.open, event) || id in spared)
                  && !(ListedRequest(core.open, event) && id in spared))
            && (TrackedTask(event).None? || event.category == Error || event.category == Completed ==>
                  !core.entries[id].superseded)
            && (forall t :: t in core.open ==> |core.open[t].requests| <= 1)
  {
    hide StoreOk, EntryOk, SparedBy;
    RunAgreement(states, inputs, i);
    RunOk(states, inputs, i);
    var core := states[i].core;
    assert EventAgrees(core, id, SparedSoFar(states, inputs, i));
    forall t | t in core.open ensures |core.open[t].requests| <= 1 {
      assert TaskRefsOk(t, core.open[t], core.events);
    }
  }

  /** A spared request was displaced at some step, and was not unresolved then. */
  lemma {:induction false} SparedWereAnswered(states: seq<System>, inputs: seq<Input>, i: nat, id: EventId)
    requires i <= |inputs| < |states| && id in SparedSoFar(states, inputs, i)
    ensures exists j :: 0 <= j < i && inputs[j].command.AdapterEvent? && id in states[j].core.entries &&
              states[j].core.entries[id].resolution != Some(Unresolved) && states[j].core.entries[id].resolution.Some? &&
              id in Displaced(states[j].core, MakeEvent(states[j].core, inputs[j].command.raw, inputs[j].now, inputs[j].freshId))
  {
    if id in SparedSoFar(states, inputs, i - 1) {
      SparedWereAnswered(states, inputs, i - 1, id);
    }
  }

  /** Being spared is not being resolved: a request displaced while its answer is on the way, whose
      delivery then fails, ends up unresolved and alive, with no task listing it any more. */
  lemma OrphanedRequest(core: Core, id: EventId, raw: RawEvent, now: Time, newId: EventId, reason: string, later: Time)
    requires CoreOk(core) && newId !in core.events && !Malformed(raw)
    requires id in core.events && core.entries[id].resolution == Some(PendingDelivery) && core.entries[id].IsLive()
    requires ListedRequest(core.open, core.events[id])
    requires var event := MakeEvent(core, raw, now, newId);
             TrackedTask(event) == TrackedTask(core.events[id]) && event.category != Working
    ensures var displaced := Step(core, AdapterEvent(raw), now, newId).core;
            var reopened := OutcomeStep(Pipe(displaced, []), NotDelivered(id, reason), later).core;
            && id in reopened.entries && reopened.entries[id].IsLive()
            && reopened.entries[id].resolution == Some(Unresolved)
            && !ListedRequest(reopened.open, core.events[id])
  {
    hide Malformed, MakeEvent, MakeLogs, MakeMetrics, EntryOk, Observed, Displaced, SupersedeAll, UpdateScore;
    var event := MakeEvent(core, raw, now, newId);
    assert event.eventId == newId by { EventIdOfMade(core, raw, now, newId); }
    var observed := Pipe(Processed(core, raw, now, newId).(open := Observed(core.open, event).0), []);
    SupersedeAllMarks(observed, Displaced(core, event));
    ObservedElsewhere(core.open, event, core.events[id]);
    var displaced := Step(core, AdapterEvent(raw), now, newId).core;
    assert displaced == SupersedeAll(observed, Displaced(core, event)).core;
    assert displaced.entries[id] == core.entries[id];
    assert core.entries[id].eventId == id by { KeyOfEntry(core, id); }
    var reopened := displaced.entries[id].(resolution := Some(Unresolved));
    UpdateScoreFrame(Pipe(displaced.(entries := displaced.entries[id := reopened]), []), id, later);
  }
}
