/** Short runs in which the less expected things happen. */
module Incidents {
  import opened Types
  import opened Classifier
  import opened PriorityQueues
  import opened Tracker
  import opened LogStores
  import opened CoreMachine
  import opened Replica
  import opened Coherence
  import opened Clients
  import opened Delivery
  import opened Agreement
  import opened Orphans
  import opened Questions
  import Adapters
  import AdapterRuns
  import AdapterGaps
  import InputEncoder

  // ---- a lost announcement --------------------------------------------------------------------------

  const NOBODY: Links := map[]

  function StartCore(responder: Option<Channel>): Core {
    Fresh0(DEFAULT_CONFIG, DEFAULT_THRESHOLDS, responder)
  }

  lemma StartOk(responder: Option<Channel>)
    ensures Initial(System(StartCore(responder), NOBODY, 0))
  {
  }

  /** The first event of a new core. */
  lemma FirstEvent(raw: RawEvent, id: EventId, responder: Option<Channel>)
    requires !Malformed(raw)
    ensures var core := StartCore(responder);
            var p, event := Step(core, AdapterEvent(raw), 0, id), MakeEvent(core, raw, 0, id);
            && event.eventId == id
            && p.out == [ToAll(EventPush(event, MakeEntry(event, 0)))]
            && p.core.entries == map[id := MakeEntry(event, 0)]
            && MakeEntry(event, 0).eventId == id && MakeEntry(event, 0).state == New
  {
    hide Malformed, MakeLogs, MakeMetrics, Classify;
    assert Displaced(StartCore(responder), MakeEvent(StartCore(responder), raw, 0, id)) == [];
  }

  lemma AckOut(core: Core, client: ClientId, id: EventId)
    requires id in core.entries && core.entries[id].state == New && core.entries[id].eventId == id
    ensures var p := Step(core, FromClient(client, None, Ack(id)), 0, id + 1);
            && |p.out| == 2 && p.out[0].ToAll?
            && p.out[1] == ToClient(client, Message(None, CommandResult(None)))
            && p.core.entries == core.entries[id := core.entries[id].(state := Seen)]
            && p.core.events == core.events
  {
  }

  function Linked(received: seq<Body>, lossy: bool): Links {
    map[0 := Link(received, lossy, false)]
  }

  lemma ConnectNext(core: Core)
    requires core.events == map[]
    ensures Next(System(core, NOBODY, 0), Clients.Input(Connect(0), 0, 1), System(core, Linked([], false), 0))
  {
    hide Step;
    ConnectKeeps(core, 0, 1);
  }

  lemma ArriveNext(core: Core, raw: RawEvent, body: Body)
    requires core.events == map[] && Step(core, AdapterEvent(raw), 0, 1).out == [ToAll(body)]
    ensures Next(System(core, Linked([], false), 0), Clients.Input(AdapterEvent(raw), 0, 1),
                 System(Step(core, AdapterEvent(raw), 0, 1).core, Linked([body], false), 0))
  {
    hide Step, Deliver;
    assert [] + [body] == [body];
    OneDelivered(Linked([], false), ToAll(body), Linked([body], false));
  }

  lemma AckNext(core: Core, body: Body)
    requires 2 !in core.events && 1 in core.entries && core.entries[1].state == New && core.entries[1].eventId == 1
    ensures Next(System(core, Linked([body], false), 0), Clients.Input(FromClient(0, None, Ack(1)), 0, 2),
                 System(Step(core, FromClient(0, None, Ack(1)), 0, 2).core, Linked([body], true), 0))
  {
    hide Step, Deliver;
    AckOut(core, 0, 1);
    var out := Step(core, FromClient(0, None, Ack(1)), 0, 2).out;
    assert DeliverOne(Linked([body], false), out[0], Linked([body], true));
    TwoDelivered(Linked([body], false), out[0], Linked([body], true), out[1], Linked([body], true));
    assert out == [out[0], out[1]];
  }

  lemma OneEventHeld(event: Event, entry: QueueEntry)
    ensures ViewOf(Link([EventPush(event, entry)], true, false)) == map[entry.eventId := entry]
  {
    assert [EventPush(event, entry)][..0] == [];
    assert Fold(map[], [EventPush(event, entry)]) == map[entry.eventId := entry];
  }

  /** A client that is connected, is told of an event, acknowledges it, and loses the announcement of that: it
      keeps the event as new, while in the queue it has been seen. */
  lemma LostAcknowledgement(raw: RawEvent) returns (states: seq<System>, inputs: seq<Clients.Input>)
    requires !Malformed(raw)
    ensures Run(states, inputs) && |inputs| == 3 && 0 in states[3].links
    ensures var v, entries := ViewOf(states[3].links[0]), states[3].core.entries;
            1 in v && 1 in entries && v[1].state == New && entries[1].state == Seen
  {
    hide Malformed, MakeEvent, MakeEntry, Step, Initial, Next, ViewOf;
    inputs := [Clients.Input(Connect(0), 0, 1), Clients.Input(AdapterEvent(raw), 0, 1),
               Clients.Input(FromClient(0, None, Ack(1)), 0, 2)];
    var core := StartCore(None);
    FirstEvent(raw, 1, None);
    EventKeys(core, raw, 1);
    var event := MakeEvent(core, raw, 0, 1);
    var pushed := EventPush(event, MakeEntry(event, 0));
    var core1 := Step(core, AdapterEvent(raw), 0, 1).core;
    var core2 := Step(core1, FromClient(0, None, Ack(1)), 0, 2).core;
    states := [System(core, NOBODY, 0), System(core, Linked([], false), 0), System(core1, Linked([pushed], false), 0),
               System(core2, Linked([pushed], true), 0)];
    StartOk(None);
    ConnectNext(core);
    ArriveNext(core, raw, pushed);
    AckNext(core1, pushed);
    AckOut(core1, 0, 1);
    OneEventHeld(event, MakeEntry(event, 0));
  }

  lemma ConnectKeeps(core: Core, client: ClientId, id: EventId)
    ensures Step(core, Connect(client), 0, id) == Pipe(core, [])
  {
  }

  lemma EventKeys(core: Core, raw: RawEvent, id: EventId)
    requires !Malformed(raw) && core.events == map[]
    ensures Step(core, AdapterEvent(raw), 0, id).core.events.Keys == {id}
  {
    hide Malformed, MakeLogs, MakeMetrics, MakeEvent, MakeEntry, Observed, SupersedeAll;
    var event := MakeEvent(core, raw, 0, id);
    var observed := Pipe(Processed(core, raw, 0, id).(open := Observed(core.open, event).0), []);
    SupersedeAllMarks(observed, Displaced(core, event));
  }

  lemma OneDelivered(links: Links, o: Outgoing, links': Links)
    requires DeliverOne(links, o, links')
    ensures Deliver(links, [o], links')
  {
    hide DeliverOne;
    assert DeliverPath([links, links'], [o]);
  }

  lemma TwoDelivered(links: Links, a: Outgoing, mid: Links, b: Outgoing, links': Links)
    requires DeliverOne(links, a, mid) && DeliverOne(mid, b, links')
    ensures Deliver(links, [a, b], links')
  {
    hide DeliverOne;
    assert DeliverPath([links, mid, links'], [a, b]);
  }

  // ---- an orphaned request --------------------------------------------------------------------------

  lemma NobodyReached(out: seq<Outgoing>)
    ensures Deliver(NOBODY, out, NOBODY)
  {
    var path := seq(|out| + 1, _ => NOBODY);
    assert DeliverPath(path, out);
  }

  function Asking(seqNo: nat): RawEvent {
    RawEvent("agent", seqNo, Some("task"), "approval_required", Other, "May I?", [], Some("May I?"))
  }

  lemma AskingIsRequest(core: Core, seqNo: nat, now: Time, id: EventId)
    requires seqNo > 0
    ensures var raw := Asking(seqNo);
            && !Malformed(raw)
            && MakeEvent(core, raw, now, id).category == Request
            && TrackedTask(MakeEvent(core, raw, now, id)) == Some("task")
  {
    assert !IsBlank("agent") by { assert "agent"[0] in "agent"; }
    assert !IsBlank("approval_required") by { assert "approval_required"[0] in "approval_required"; }
    assert !IsBlank("task") by { assert "task"[0] in "task"; }
    assert Table()[0] == Rule("approval_required", Request, Critical);
    assert Classify("approval_required").category == Request;
  }

  /** A request arrives, is approved by a client that is gone by then, is displaced by a newer one of its task,
      and its delivery fails: it is open again, and no task lists it. */
  lemma RequestOrphaned() returns (states: seq<System>, inputs: seq<Clients.Input>)
    ensures Run(states, inputs) && |inputs| == 4 && Orphan(states[4].core, 1)
  {
    hide Step, Initial, Asking, ListedRequest, CoreOk;
    var command := FromClient(0, None, Respond(1, Approve, None, None));
    inputs := [Clients.Input(AdapterEvent(Asking(1)), 0, 1), Clients.Input(command, 0, 2),
               Clients.Input(AdapterEvent(Asking(2)), 0, 2), Clients.Input(AdapterResponse(NotDelivered(1, "gone")), 0, 3)];
    var core0 := StartCore(Some(Channel(1, false, [])));
    var core1 := Step(core0, inputs[0].command, 0, 1).core;
    var core2 := Step(core1, command, 0, 2).core;
    var core3 := Step(core2, inputs[2].command, 0, 2).core;
    var core4 := Step(core3, inputs[3].command, 0, 3).core;
    states := [System(core0, NOBODY, 0), System(core1, NOBODY, 0), System(core2, NOBODY, 0), System(core3, NOBODY, 0),
               System(core4, NOBODY, 0)];
    StartOk(Some(Channel(1, false, [])));
    RequestArrives(core0);
    RequestApproved(core1);
    RequestDisplaced(core2);
    forall i | 0 <= i < 4 ensures Next(states[i], inputs[i], states[i + 1]) {
      NobodyReached(Step(states[i].core, inputs[i].command, 0, inputs[i].freshId).out);
    }
  }

  ghost predicate Stage(core: Core, resolution: Resolution, listed: bool) {
    && CoreOk(core) && core.events.Keys == {1} && TrackedRequest(core, 1)
    && TrackedTask(core.events[1]) == Some("task")
    && core.entries[1].IsLive() && core.entries[1].resolution == Some(resolution)
    && ListedRequest(core.open, core.events[1]) == listed
    && core.responder.Some?
  }

  lemma StartGood(responder: Option<Channel>)
    ensures CoreOk(StartCore(responder))
  {
  }

  lemma RequestArrives(core: Core)
    requires core == StartCore(Some(Channel(1, false, [])))
    ensures var q := Step(core, AdapterEvent(Asking(1)), 0, 1).core;
            Stage(q, Unresolved, true) && q.responder == core.responder && core.events == map[]
  {
    hide Step, Asking, Malformed, MakeEvent, Observed, Displaced, CoreOk, ListedRequest, ListedWorking;
    var raw := Asking(1);
    AskingIsRequest(core, 1, 0, 1);
    StartGood(core.responder);
    StepOk(core, Clients.Input(AdapterEvent(raw), 0, 1));
    EventStepEntries(core, raw, 0, 1);
    TrackerOfCore(core);
    EventIdOfMade(core, raw, 0, 1);
    NewEventAgrees(core, MakeEvent(core, raw, 0, 1));
    KeysAgree(core);
    KeepsChannel(core, raw, 1);
  }

  lemma KeepsChannel(core: Core, raw: RawEvent, id: EventId)
    requires id !in core.entries
    ensures Step(core, AdapterEvent(raw), 0, id).core.responder == core.responder
  {
    hide EventStep;
    EventResolutions(Pipe(core, []), raw, 0, id);
  }

  lemma RequestApproved(core: Core)
    requires Stage(core, Unresolved, true) && core.responder == Some(Channel(1, false, []))
    ensures Stage(Step(core, FromClient(0, None, Respond(1, Approve, None, None)), 0, 2).core, PendingDelivery, true)
  {
    hide RespondStep, CoreOk, ListedRequest, FromRespondRequest, CommandFor;
    var command := FromClient(0, None, Respond(1, Approve, None, None));
    var response := FromRespondRequest(Approve, None, None);
    KeysAgree(core);
    StepOk(core, Clients.Input(command, 0, 2));
    RespondResolutions(Pipe(core, []), 0, None, 1, Approve, response, 0);
    RespondAttention(Pipe(core, []), 0, None, 1, Approve, response, 0);
  }

  lemma RequestDisplaced(core: Core)
    requires Stage(core, PendingDelivery, true)
    ensures var displaced := Step(core, AdapterEvent(Asking(2)), 0, 2).core;
            && displaced.events.Keys == {1, 2}
            && Orphan(Step(displaced, AdapterResponse(NotDelivered(1, "gone")), 0, 3).core, 1)
  {
    hide Step, Asking, Malformed, MakeEvent, Observed, Displaced, CoreOk, ListedRequest, ListedWorking, OutcomeStep;
    var raw := Asking(2);
    AskingIsRequest(core, 2, 0, 2);
    EventStepEntries(core, raw, 0, 2);
    KeysAgree(core);
    OrphanedRequest(core, 1, raw, 0, 2, "gone", 0);
    var displaced := Step(core, AdapterEvent(raw), 0, 2).core;
    StepOk(core, Clients.Input(AdapterEvent(raw), 0, 2));
    KeysAgree(displaced);
    QuietFrame(displaced, AdapterResponse(NotDelivered(1, "gone")), 0, 3);
    OutcomeIsStep(displaced, NotDelivered(1, "gone"), 3);
  }

  lemma OutcomeIsStep(core: Core, outcome: AdapterOutcome, id: EventId)
    ensures Step(core, AdapterResponse(outcome), 0, id) == OutcomeStep(Pipe(core, []), outcome, 0)
  {
  }

  // ---- a stranded dialog ----------------------------------------------------------------------------

  /** A question is asked, a response to it finds another one on screen, and it stays: nobody is ever asked
      about it, and every response is refused. */
  lemma QuestionStranded(taskId: TaskId, initialPrompt: Option<string>, asked: string, shown: string,
                         response: RequestResponse, polls: seq<AdapterRuns.Input>, later: Adapters.Reply)
    requires asked != shown && AdapterGaps.Unchanging(polls, AwaitingReply(shown))
    requires later.taskId == taskId && later.alive
    ensures var first := AdapterRuns.PollAt(Some(Adapters.Sight(AwaitingReply(asked), None, false)), 0, true, true);
            var reply := Adapters.Reply(taskId, None, response, 1, true, AwaitingReply(shown), true);
            var t := AdapterRuns.Run(taskId, initialPrompt, [first]);
            var u := AdapterRuns.Run(taskId, initialPrompt, [first, AdapterRuns.Answer(reply)] + polls);
            && u.log == t.log && u.s.current == AwaitingReply(shown) && u.s.pending.None?
            && Adapters.Responded(u, taskId, later).0 == Some(InputEncoder.StateMismatch)
  {
    hide AdapterRuns.Run, Adapters.Polled, AdapterGaps.From, AdapterRuns.Step;
    var first := AdapterRuns.PollAt(Some(Adapters.Sight(AwaitingReply(asked), None, false)), 0, true, true);
    var reply := Adapters.Reply(taskId, None, response, 1, true, AwaitingReply(shown), true);
    var t := AdapterRuns.Run(taskId, initialPrompt, [first]);
    OneInput(taskId, initialPrompt, first);
    AdapterGaps.QuestionShown(initialPrompt, asked);
    AdapterGaps.DialogStranded(t, taskId, reply, polls, later);
    AdapterRuns.RunSnoc(taskId, initialPrompt, [first], AdapterRuns.Answer(reply));
    assert [first] + [AdapterRuns.Answer(reply)] == [first, AdapterRuns.Answer(reply)];
    AnswerStep(t, taskId, reply);
    RunGoesOn(taskId, initialPrompt, [first, AdapterRuns.Answer(reply)], polls);
  }

  lemma OneInput(taskId: TaskId, initialPrompt: Option<string>, input: AdapterRuns.Input)
    ensures AdapterRuns.Run(taskId, initialPrompt, [input]) ==
              AdapterRuns.Step(Adapters.Fresh(initialPrompt), taskId, input)
    ensures input.PollAt? ==>
              AdapterRuns.Step(Adapters.Fresh(initialPrompt), taskId, input) ==
                Adapters.Polled(Adapters.Fresh(initialPrompt), input.seen, input.now, input.accepted, input.alive)
  {
    hide Adapters.Polled;
    AdapterRuns.RunSnoc(taskId, initialPrompt, [], input);
    AdapterGaps.RunEmpty(taskId, initialPrompt);
    assert [] + [input] == [input];
  }

  lemma AnswerStep(t: Adapters.Trace, taskId: TaskId, reply: Adapters.Reply)
    ensures AdapterRuns.Step(t, taskId, AdapterRuns.Answer(reply)) == Adapters.Responded(t, taskId, reply).1
  {
    hide Adapters.Responded;
  }

  lemma {:induction false} RunGoesOn(taskId: TaskId, initialPrompt: Option<string>, first: seq<AdapterRuns.Input>,
                                     more: seq<AdapterRuns.Input>)
    ensures AdapterRuns.Run(taskId, initialPrompt, first + more) ==
              AdapterGaps.From(AdapterRuns.Run(taskId, initialPrompt, first), taskId, more)
  {
    hide AdapterRuns.Step, AdapterRuns.Run;
    if more == [] {
      assert first + more == first;
    } else {
      var init, last := more[..|more| - 1], more[|more| - 1];
      RunGoesOn(taskId, initialPrompt, first, init);
      AdapterRuns.RunSnoc(taskId, initialPrompt, first + init, last);
      assert (first + init) + [last] == first + more;
    }
  }
}
