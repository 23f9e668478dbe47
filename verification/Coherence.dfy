/** Replica coherence: every client that has not silently lost a message holds, for each event it
    knows, exactly the queue's entry; and once it was sent a snapshot it knows every live event. */
module Coherence {
  import opened Types
  import opened Ordering
  import opened Scoring
  import opened Classifier
  import opened PriorityQueues
  import opened Tracker
  import opened LogStores
  import opened CoreMachine
  import opened Replica

  // ---- what the core keeps about its entries ----------------------------------------------------

  /** The score of a Working entry is the one its escalation level calls for, up to whether the
      attention penalty was in force when it was computed. */
  ghost predicate WorkingScore(e: QueueEntry, event: Event) {
    e.score == Score(e.(state := New), event, 0) || e.score == Score(e.(state := Seen), event, 0)
  }

  ghost predicate EntryOk(e: QueueEntry, event: Event) {
    && e.eventId == event.eventId && e.tier == event.category.Tier() && e.seqNo == event.seqNo
    && e.score <= 100
    && (e.resolution.Some? <==> event.category == Request)
    && (event.category == Working ==>
          LowSeverity(event.severity) && e.escalationLevel <= 2 && WorkingScore(e, event))
    && (event.category != Working ==> e.escalationLevel == 0)
  }

  ghost predicate StoreOk(core: Core) {
    && core.entries.Keys == core.events.Keys
    && (forall id :: id in core.events ==>
          core.events[id].eventId == id && 1 <= core.events[id].seqNo <= core.nextSeq)
    && (forall a, b :: a in core.events && b in core.events && core.events[a].seqNo == core.events[b].seqNo ==> a == b)
    && (forall id :: id in core.events ==> EntryOk(core.entries[id], core.events[id]))
  }

  /** The tracker only refers to stored events, of the right category and task. */
  ghost predicate TaskRefsOk(id: TaskId, task: OpenTask, events: Events) {
    && task.level <= 2
    && |task.requests| <= 1
    && (task.latestWorking.Some? ==> task.latestWorking.value in task.working)
    && (forall w :: w in task.working ==>
          w in events && events[w].category == Working && TrackedTask(events[w]) == Some(id))
    && (forall r :: r in task.requests ==>
          r in events && events[r].category == Request && TrackedTask(events[r]) == Some(id))
  }

  ghost predicate TrackerOk(core: Core) {
    forall id :: id in core.open ==> TaskRefsOk(id, core.open[id], core.events)
  }

  ghost predicate CoreOk(core: Core) {
    StoreOk(core) && TrackerOk(core)
  }

  lemma StoreHasEvents(core: Core)
    requires StoreOk(core)
    ensures core.entries.Keys == core.events.Keys
  {
  }

  lemma CoreOkIsWellKeyed(core: Core)
    requires StoreOk(core)
    ensures WellKeyed(core.entries)
  {
    forall id | id in core.entries ensures core.entries[id].eventId == id {
      assert EntryOk(core.entries[id], core.events[id]);
    }
    forall a, b | a in core.entries && b in core.entries && core.entries[a].seqNo == core.entries[b].seqNo
      ensures a == b
    {
      assert EntryOk(core.entries[a], core.events[a]) && EntryOk(core.entries[b], core.events[b]);
    }
  }

  // ---- what a client sees within a step ---------------------------------------------------------

  function ApplyOut(v: View, o: Outgoing, client: ClientId): View {
    match o
    case ToAll(body) => Apply(v, body)
    case ToClient(c, message) => if c == client then Apply(v, message.body) else v
    case ToOthers(c, body) => if c == client then v else Apply(v, body)
  }

  function FoldOut(v: View, out: seq<Outgoing>, client: ClientId): View {
    if out == [] then v else ApplyOut(FoldOut(v, out[..|out| - 1], client), out[|out| - 1], client)
  }

  /** The view agrees with the queue on every event it knows; on the event `lag` it may still be
      missing the announcement of a change of attention state, resolution or supersession. */
  ghost predicate Tracks(v: View, entries: Entries, lag: Option<EventId>) {
    forall id :: id in v ==>
      && id in entries
      && v[id] == if lag == Some(id)
                  then entries[id].(state := v[id].state, resolution := v[id].resolution, superseded := v[id].superseded)
                  else entries[id]
  }

  ghost predicate Complete(v: View, entries: Entries, missing: set<EventId>) {
    forall id :: id in entries && entries[id].IsLive() && id !in missing ==> id in v
  }

  /** A client followed through a step: its view at the start, whether it knew every live event then,
      and the events it is still to be told about. */
  datatype Watch = Watch(start: View, client: ClientId, full: bool, missing: set<EventId>)

  ghost predicate Good(p: Pipe, w: Watch, lag: Option<EventId>) {
    var v := FoldOut(w.start, p.out, w.client);
    && CoreOk(p.core)
    && Tracks(v, p.core.entries, lag)
    && (w.full ==> Complete(v, p.core.entries, w.missing))
  }

  // ---- building blocks --------------------------------------------------------------------------

  /** Replacing an entry by a version that is still in order keeps the store in order. */
  lemma ReplaceKeepsCore(core: Core, core': Core, id: EventId, e: QueueEntry)
    requires CoreOk(core) && id in core.entries
    requires core'.entries == core.entries[id := e]
    requires core'.events == core.events && core'.open == core.open && core'.nextSeq == core.nextSeq
    requires EntryOk(e, core.events[id])
    ensures CoreOk(core')
  {
  }

  /** Changes outside the queue, the store and the tracker do not concern a client's view. */
  lemma SameQueue(p: Pipe, q: Pipe, w: Watch, lag: Option<EventId>)
    requires Good(p, w, lag) && q.out == p.out
    requires q.core.entries == p.core.entries && q.core.events == p.core.events
    requires q.core.open == p.core.open && q.core.nextSeq == p.core.nextSeq
    ensures Good(q, w, lag)
  {
    hide EntryOk, TaskRefsOk, Tracks, Complete;
    SameCore(p.core, q.core);
  }

  lemma SameCore(core: Core, core': Core)
    requires CoreOk(core) && core'.entries == core.entries && core'.events == core.events
    requires core'.open == core.open && core'.nextSeq == core.nextSeq
    ensures CoreOk(core')
  {
    hide EntryOk, TaskRefsOk;
  }

  lemma ReplyGood(p: Pipe, w: Watch, client: ClientId, requestId: Option<string>, body: Body)
    requires Good(p, w, None) && !body.Snapshot? && !body.EventPush? && !body.ScorePush? && !body.StatePush?
    ensures Good(Reply(p, client, requestId, body), w, None)
  {
  }

  lemma RescoredOk(e: QueueEntry, event: Event, events: Events, now: Time)
    requires event.eventId in events && events[event.eventId] == event
    requires EntryOk(e, event)
    ensures EntryOk(Rescored(e, events, now), event)
  {
  }

  /** An escalated entry is in order again once it has been re-scored. */
  lemma RescoredAfterRaise(e: QueueEntry, level: nat, event: Event, events: Events, now: Time)
    requires event.eventId in events && events[event.eventId] == event
    requires EntryOk(e, event) && event.category == Working && level <= 2
    ensures EntryOk(Rescored(e.(escalationLevel := level), events, now), event)
    ensures e.escalationLevel != level ==> Rescored(e.(escalationLevel := level), events, now).score != e.score
  {
  }

  lemma RescoredEntryOk(core: Core, id: EventId, now: Time)
    requires CoreOk(core) && id in core.entries
    ensures var e := Rescored(core.entries[id], core.events, now);
            && EntryOk(e, core.events[id])
            && e.eventId == id && e == core.entries[id].(score := e.score)
  {
    assert EntryOk(core.entries[id], core.events[id]);
    RescoredOk(core.entries[id], core.events[id], core.events, now);
  }

  /** When the announced score and level are the entry's new ones, the view follows. */
  lemma ScoreAnnounced(p: Pipe, q: Pipe, w: Watch, lag: Option<EventId>, id: EventId, e: QueueEntry)
    requires Good(p, w, lag) && id in p.core.entries && CoreOk(q.core)
    requires e == p.core.entries[id].(score := e.score, escalationLevel := e.escalationLevel) && e.eventId == id
    requires q.core.entries == p.core.entries[id := e]
    requires q.out == if e == p.core.entries[id] then p.out else p.out + [ToAll(ScorePush(ScoreOf(e)))]
    ensures Good(q, w, lag)
  {
    hide CoreOk, Tracks, Complete, Apply;
    if e == p.core.entries[id] {
      assert q.core.entries == p.core.entries;
    } else {
      var v := FoldOut(w.start, p.out, w.client);
      assert q.out[..|q.out| - 1] == p.out;
      TracksScore(v, p.core.entries, lag, id, e, w.missing);
    }
  }

  lemma TracksScore(v: View, entries: Entries, lag: Option<EventId>, id: EventId, e: QueueEntry, missing: set<EventId>)
    requires Tracks(v, entries, lag) && id in entries
    requires e == entries[id].(score := e.score, escalationLevel := e.escalationLevel) && e.eventId == id
    ensures var v' := Apply(v, ScorePush(ScoreOf(e)));
            && Tracks(v', entries[id := e], lag)
            && (Complete(v, entries, missing) ==> Complete(v', entries[id := e], missing))
  {
  }

  /** A score change and its announcement move the queue and the view together. */
  lemma UpdateScoreGood(p: Pipe, w: Watch, lag: Option<EventId>, id: EventId, now: Time)
    requires Good(p, w, lag)
    ensures Good(UpdateScore(p, id, now), w, lag)
  {
    hide Score, Rescored, EntryOk, StoreOk, TrackerOk, Tracks, Complete;
    if id in p.core.entries {
      var e := Rescored(p.core.entries[id], p.core.events, now);
      StoreHasEvents(p.core);
      RescoredEntryOk(p.core, id, now);
      ReplaceKeepsCore(p.core, UpdateScore(p, id, now).core, id, e);
      ScoreAnnounced(p, UpdateScore(p, id, now), w, lag, id, e);
    }
  }

  /** Announcing the state of an entry ends any lag on it. */
  lemma StateAnnounced(p: Pipe, w: Watch, id: EventId, u: StateUpdate)
    requires Good(p, w, Some(id)) && id in p.core.entries && u == StateOf(p.core.entries[id])
    ensures Good(Announce(p, StatePush(u)), w, None)
  {
    hide CoreOk, Tracks, Complete, Apply;
    assert p.core.entries[id].eventId == id by { KeyOfEntry(p.core, id); }
    assert Announce(p, StatePush(u)).out[..|p.out|] == p.out;
    TracksState(FoldOut(w.start, p.out, w.client), p.core.entries, id, w.missing);
  }

  lemma TracksState(v: View, entries: Entries, id: EventId, missing: set<EventId>)
    requires Tracks(v, entries, Some(id)) && id in entries && entries[id].eventId == id
    ensures var v' := Apply(v, StatePush(StateOf(entries[id])));
            && Tracks(v', entries, None)
            && (Complete(v, entries, missing) ==> Complete(v', entries, missing))
  {
  }

  lemma StillOk(before: QueueEntry, after: QueueEntry, event: Event)
    requires EntryOk(before, event)
    requires after == before.(state := after.state, resolution := after.resolution, superseded := after.superseded)
    requires before.resolution.Some? <==> after.resolution.Some?
    ensures EntryOk(after, event)
  {
  }

  /** Changing attention state, resolution or supersession, short of reviving a dead entry, leaves
      the view lagging on that entry only. */
  lemma EntryMoved(p: Pipe, q: Pipe, w: Watch, lag: Option<EventId>, id: EventId, e: QueueEntry)
    requires Good(p, w, lag) && (lag == None || lag == Some(id)) && id in p.core.entries
    requires q.out == p.out && q.core.entries == p.core.entries[id := e]
    requires q.core.events == p.core.events && q.core.open == p.core.open && q.core.nextSeq == p.core.nextSeq
    requires var before := p.core.entries[id];
             && e == before.(state := e.state, resolution := e.resolution, superseded := e.superseded)
             && (before.resolution.Some? <==> e.resolution.Some?)
             && (e.IsLive() ==> before.IsLive())
    ensures Good(q, w, Some(id))
  {
    hide EntryOk, CoreOk, Tracks, Complete, QueueEntry.IsLive;
    EntryInOrder(p.core, id);
    StillOk(p.core.entries[id], e, p.core.events[id]);
    ReplaceKeepsCore(p.core, q.core, id, e);
    TracksMoved(FoldOut(w.start, p.out, w.client), p.core.entries, lag, id, e, w.missing);
  }

  lemma EntryInOrder(core: Core, id: EventId)
    requires CoreOk(core) && id in core.entries
    ensures id in core.events && EntryOk(core.entries[id], core.events[id])
  {
  }

  lemma TracksMoved(v: View, entries: Entries, lag: Option<EventId>, id: EventId, e: QueueEntry, missing: set<EventId>)
    requires Tracks(v, entries, lag) && (lag == None || lag == Some(id)) && id in entries
    requires e == entries[id].(state := e.state, resolution := e.resolution, superseded := e.superseded)
    requires e.IsLive() ==> entries[id].IsLive()
    ensures Tracks(v, entries[id := e], Some(id))
    ensures Complete(v, entries, missing) ==> Complete(v, entries[id := e], missing)
  {
  }

  // ---- ticks ------------------------------------------------------------------------------------

  lemma {:induction false} FoldOutAppend(v: View, first: seq<Outgoing>, second: seq<Outgoing>, client: ClientId)
    ensures FoldOut(v, first + second, client) == FoldOut(FoldOut(v, first, client), second, client)
  {
    if second == [] {
      assert first + second == first;
    } else {
      var last := |second| - 1;
      assert (first + second)[..|first + second| - 1] == first + second[..last];
      FoldOutAppend(v, first, second[..last], client);
    }
  }

  /** Folding score announcements moves exactly the announced entries to their new version. */
  lemma {:induction false} ScorePushesFold(v: View, before: Entries, goal: Entries, updates: seq<ScoreUpdate>, client: ClientId)
    requires before.Keys == goal.Keys
    requires forall id :: id in goal ==> goal[id] == before[id].(score := goal[id].score) && goal[id].eventId == id
    requires forall u :: u in updates ==> u.eventId in goal && u == ScoreOf(goal[u.eventId])
    requires forall id :: id in v ==> id in before && v[id] == before[id]
    ensures var v' := FoldOut(v, ScorePushes(updates), client);
            v'.Keys == v.Keys &&
            forall id :: id in v ==> v'[id] == if ScoreOf(goal[id]) in updates then goal[id] else before[id]
  {
    if updates != [] {
      var last := |updates| - 1;
      assert ScorePushes(updates)[..last] == ScorePushes(updates[..last]);
      ScorePushesFold(v, before, goal, updates[..last], client);
      assert updates == updates[..last] + [updates[last]];
    }
  }

  lemma RescoredEntriesOk(core: Core, now: Time)
    requires CoreOk(core)
    ensures CoreOk(core.(entries := RescoredEntries(core.entries, core.events, now)))
    ensures var goal := RescoredEntries(core.entries, core.events, now);
            && goal.Keys == core.entries.Keys
            && (forall id :: id in goal ==> goal[id] == core.entries[id].(score := goal[id].score) && goal[id].eventId == id)
  {
    hide Score, EntryOk, Rescored;
    CoreOkIsWellKeyed(core);
    forall id | id in core.entries
      ensures EntryOk(RescoredEntries(core.entries, core.events, now)[id], core.events[id])
      ensures RescoredEntries(core.entries, core.events, now)[id].eventId == id
      ensures var e := RescoredEntries(core.entries, core.events, now)[id]; e == core.entries[id].(score := e.score)
    {
      RescoredEntryOk(core, id, now);
    }
  }

  lemma UpdatesAreChanges(entries: Entries, events: Events, now: Time)
    requires forall id :: id in entries ==> RescoredEntries(entries, events, now)[id].eventId == id
    ensures var goal := RescoredEntries(entries, events, now);
            var updates := RescoreUpdates(entries, events, now);
            && (forall u :: u in updates ==> u.eventId in goal && u == ScoreOf(goal[u.eventId]))
            && (forall id :: id in goal && goal[id].score != entries[id].score ==> ScoreOf(goal[id]) in updates)
  {
    hide Rescored;
    var goal := RescoredEntries(entries, events, now);
    var changes := ScoreChanges(entries, goal);
    assert Separates(changes, ByEventId);
    ArrangeSorted(changes, ByEventId);
    forall u | u in RescoreUpdates(entries, events, now) ensures u in changes {
      assert u in Elements(RescoreUpdates(entries, events, now));
    }
    forall id | id in goal && goal[id].score != entries[id].score
      ensures ScoreOf(goal[id]) in RescoreUpdates(entries, events, now)
    {
      assert ScoreOf(goal[id]) in changes;
      assert ScoreOf(goal[id]) in Elements(RescoreUpdates(entries, events, now));
    }
  }

  lemma RescoreStepGood(p: Pipe, w: Watch, now: Time)
    requires Good(p, w, None)
    ensures Good(RescoreStep(p, now), w, None)
  {
    hide RescoredEntries, RescoreUpdates, CoreOk, ScorePushes;
    RescoredEntriesOk(p.core, now);
    UpdatesAreChanges(p.core.entries, p.core.events, now);
    var goal := RescoredEntries(p.core.entries, p.core.events, now);
    var updates := RescoreUpdates(p.core.entries, p.core.events, now);
    var v := FoldOut(w.start, p.out, w.client);
    ScorePushesFold(v, p.core.entries, goal, updates, w.client);
    FoldOutAppend(w.start, p.out, ScorePushes(updates), w.client);
  }

  ghost predicate ActionOk(core: Core, action: EscalationAction) {
    && action.eventId in core.events && core.events[action.eventId].category == Working
    && 1 <= action.level <= 2
  }

  lemma EscalateOneGood(p: Pipe, w: Watch, action: EscalationAction, now: Time)
    requires Good(p, w, None) && ActionOk(p.core, action)
    ensures Good(EscalateOne(p, action, now), w, None)
  {
    hide Score, Rescored, EntryOk, TrackerOk, Tracks, Complete, WorkingScore;
    var id := action.eventId;
    if p.core.entries[id].escalationLevel != action.level {
      var before := p.core.entries[id];
      assert EntryOk(before, p.core.events[id]);
      var e := RaisedEntry(p.core, id, action.level, now);
      var q := EscalateOne(p, action, now);
      assert q.core.entries == p.core.entries[id := e];
      ReplaceKeepsCore(p.core, q.core, id, e);
      ScoreAnnounced(p, q, w, None, id, e);
    } else {
      SameQueue(p, EscalateOne(p, action, now), w, None);
    }
  }

  lemma RaisedEntry(core: Core, id: EventId, level: nat, now: Time) returns (e: QueueEntry)
    requires CoreOk(core) && id in core.entries && core.events[id].category == Working && level <= 2
    ensures e == Rescored(core.entries[id].(escalationLevel := level), core.events, now)
    ensures EntryOk(e, core.events[id]) && e.eventId == id
    ensures e == core.entries[id].(score := e.score, escalationLevel := level)
    ensures core.entries[id].escalationLevel != level ==> e.score != core.entries[id].score
  {
    assert EntryOk(core.entries[id], core.events[id]);
    RescoredAfterRaise(core.entries[id], level, core.events[id], core.events, now);
    e := Rescored(core.entries[id].(escalationLevel := level), core.events, now);
  }

  lemma EscalateOneFrame(p: Pipe, action: EscalationAction, now: Time)
    ensures var q := EscalateOne(p, action, now).core;
            && q.events == p.core.events && q.open == p.core.open && q.nextSeq == p.core.nextSeq
            && q.thresholds == p.core.thresholds && q.logs == p.core.logs && q.responder == p.core.responder
            && q.entries.Keys == p.core.entries.Keys
  {
  }

  lemma {:induction false} EscalateAllGood(p: Pipe, w: Watch, actions: seq<EscalationAction>, now: Time)
    requires Good(p, w, None) && forall a :: a in actions ==> ActionOk(p.core, a)
    ensures Good(EscalateAll(p, actions, now), w, None)
    ensures EscalateAll(p, actions, now).core.events == p.core.events
  {
    hide EscalateOne, Good;
    if actions != [] {
      var last := |actions| - 1;
      EscalateAllGood(p, w, actions[..last], now);
      assert ActionOk(p.core, actions[last]) && ActionOk(EscalateAll(p, actions[..last], now).core, actions[last]);
      EscalateOneGood(EscalateAll(p, actions[..last], now), w, actions[last], now);
      EscalateOneFrame(EscalateAll(p, actions[..last], now), actions[last], now);
    }
  }

  lemma TickActionsOk(core: Core, now: Time)
    requires CoreOk(core)
    ensures forall a :: a in TickActions(core.open, core.thresholds, now) ==> ActionOk(core, a)
  {
    hide StoreOk, TickActions, StrictlySorted;
    TickActionsExact(core.open, core.thresholds, now);
    forall a | a in TickActions(core.open, core.thresholds, now) ensures ActionOk(core, a) {
      assert a in Elements(TickActions(core.open, core.thresholds, now));
      assert TaskRefsOk(a.taskId, core.open[a.taskId], core.events);
    }
  }

  lemma TickedTasksOk(core: Core, now: Time)
    requires TrackerOk(core)
    ensures TrackerOk(core.(open := TickedTasks(core.open, core.thresholds, now)))
  {
    forall id | id in core.open ensures TaskRefsOk(id, Ticked(core.open[id], core.thresholds, now), core.events) {
      assert TaskRefsOk(id, core.open[id], core.events);
    }
  }

  lemma TickStepGood(p: Pipe, w: Watch, now: Time)
    requires Good(p, w, None)
    ensures Good(TickStep(p, now), w, None)
  {
    hide TickActions, TickedTasks, RescoredEntries, EscalateAll, StoreOk, Tracks, Complete, EntryOk;
    RescoreStepGood(p, w, now);
    TickActionsOk(p.core, now);
    TickedTasksOk(p.core, now);
    var actions := TickActions(p.core.open, p.core.thresholds, now);
    var rescored := RescoreStep(p, now);
    var ticked := rescored.(core := rescored.core.(open := TickedTasks(p.core.open, p.core.thresholds, now)));
    OpenReplaced(rescored.core, ticked.core);
    EscalateAllGood(ticked, w, actions, now);
  }

  /** The store does not depend on the tracker, nor the tracker on the entries. */
  lemma OpenReplaced(core: Core, core': Core)
    requires StoreOk(core)
    requires core' == core.(open := core'.open)
    ensures StoreOk(core')
  {
  }

  // ---- events -----------------------------------------------------------------------------------

  lemma SupersedeOneGood(p: Pipe, w: Watch, id: EventId)
    requires Good(p, w, None)
    ensures Good(SupersedeOne(p, id), w, None)
    ensures SupersedeOne(p, id).core.events == p.core.events
  {
    hide Score, EntryOk, TrackerOk, Tracks, Complete, Good;
    if id in p.core.entries && Superseded(p.core.entries[id]) != p.core.entries[id] {
      var e := Superseded(p.core.entries[id]);
      var q := p.(core := p.core.(entries := p.core.entries[id := e]));
      EntryMoved(p, q, w, None, id, e);
      StateAnnounced(q, w, id, StateOf(e));
    }
  }

  lemma {:induction false} SupersedeAllGood(p: Pipe, w: Watch, ids: seq<EventId>)
    requires Good(p, w, None)
    ensures Good(SupersedeAll(p, ids), w, None)
    ensures SupersedeAll(p, ids).core.events == p.core.events
    ensures forall id :: id in p.core.entries && id !in ids ==>
              id in SupersedeAll(p, ids).core.entries && SupersedeAll(p, ids).core.entries[id] == p.core.entries[id]
  {
    hide Good;
    if ids != [] {
      var last := |ids| - 1;
      SupersedeAllGood(p, w, ids[..last]);
      SupersedeOneGood(SupersedeAll(p, ids[..last]), w, ids[last]);
      assert ids == ids[..last] + [ids[last]];
    }
  }

  /** A new event and its entry keep the store in order. */
  lemma ProcessedOk(core: Core, raw: RawEvent, now: Time, id: EventId)
    requires StoreOk(core) && id !in core.events
    ensures StoreOk(Processed(core, raw, now, id))
  {
    hide MakeLogs, MakeMetrics, WithLines, NextOffset, Classify, EntryOk;
    var event := MakeEvent(core, raw, now, id);
    SeverityByCategory(raw.kind);
    assert EntryOk(MakeEntry(event, now), event) by {
      NewEntryOk(event, now);
    }
  }

  lemma NewEntryOk(event: Event, now: Time)
    requires event.category == Working ==> LowSeverity(event.severity)
    ensures EntryOk(MakeEntry(event, now), event)
  {
  }

  /** Observing a stored event keeps the tracker's references in order. */
  lemma ObservedOk(open: OpenTasks, events: Events, event: Event)
    requires forall t :: t in open ==> TaskRefsOk(t, open[t], events)
    requires event.eventId in events && events[event.eventId] == event
    ensures forall t :: t in Observed(open, event).0 ==> TaskRefsOk(t, Observed(open, event).0[t], events)
    ensures forall ids, k :: Observed(open, event).1 == Some(ids) && k in ids ==> k in events
  {
  }

  lemma EventStepGood(p: Pipe, w: Watch, raw: RawEvent, now: Time, id: EventId)
    requires Good(p, w, None) && id !in p.core.events && w.missing == {}
    ensures Good(EventStep(p, raw, now, id), w, None)
  {
    if Malformed(raw) {
      SameQueue(p, EventStep(p, raw, now, id), w, None);
    } else {
      hide EntryOk, StoreOk, Malformed, Observed, MakeEvent, MakeEntry, MakeLogs, MakeMetrics, TaskRefsOk, SupersedeAll;
      var event := MakeEvent(p.core, raw, now, id);
      assert event.eventId == id by { EventIdOfMade(p.core, raw, now, id); }
      var observed := ObservedPipe(p, w, raw, now, id);
      DisplacedKnown(p.core, event);
      var displaced := Displaced(p.core, event);
      SupersedeAllGood(observed, w.(missing := {id}), displaced);
      EventAnnounced(SupersedeAll(observed, displaced), w, id, event, MakeEntry(event, now));
    }
  }

  /** The state after a new event was stored and observed, before anyone is told. */
  lemma ObservedPipe(p: Pipe, w: Watch, raw: RawEvent, now: Time, id: EventId) returns (observed: Pipe)
    requires Good(p, w, None) && id !in p.core.events && w.missing == {}
    ensures var event := MakeEvent(p.core, raw, now, id);
            && observed == p.(core := Processed(p.core, raw, now, id).(open := Observed(p.core.open, event).0))
            && observed.core.entries == p.core.entries[id := MakeEntry(event, now)]
    ensures Good(observed, w.(missing := {id}), None)
  {
    hide EntryOk, StoreOk, Observed, MakeEvent, MakeEntry, MakeLogs, MakeMetrics, TaskRefsOk, Tracks, Complete;
    var event := MakeEvent(p.core, raw, now, id);
    assert event.eventId == id by { EventIdOfMade(p.core, raw, now, id); }
    StoreHasEvents(p.core);
    NewIsMissing(FoldOut(w.start, p.out, w.client), p.core.entries, id, MakeEntry(event, now));
    ProcessedOk(p.core, raw, now, id);
    var processed := Processed(p.core, raw, now, id);
    TrackerExtended(p.core.open, p.core.events, event);
    ObservedOk(p.core.open, processed.events, event);
    observed := p.(core := processed.(open := Observed(p.core.open, event).0));
    OpenReplaced(processed, observed.core);
  }

  lemma NewIsMissing(v: View, entries: Entries, id: EventId, e: QueueEntry)
    requires Tracks(v, entries, None) && id !in entries
    ensures Tracks(v, entries[id := e], None)
    ensures Complete(v, entries, {}) ==> Complete(v, entries[id := e], {id})
  {
  }

  lemma EventIdOfMade(core: Core, raw: RawEvent, now: Time, id: EventId)
    ensures MakeEvent(core, raw, now, id).eventId == id
  {
  }

  lemma TrackerExtended(open: OpenTasks, events: Events, event: Event)
    requires event.eventId !in events
    requires forall t :: t in open ==> TaskRefsOk(t, open[t], events)
    ensures forall t :: t in open ==> TaskRefsOk(t, open[t], events[event.eventId := event])
  {
  }

  lemma DisplacedKnown(core: Core, event: Event)
    requires TrackerOk(core)
    ensures forall k :: k in Displaced(core, event) ==> k in core.events
  {
  }

  /** Announcing a new event with its current entry tells the client all it was missing. */
  lemma EventAnnounced(p: Pipe, w: Watch, id: EventId, event: Event, entry: QueueEntry)
    requires Good(p, w.(missing := {id}), None) && w.missing == {}
    requires id in p.core.entries && p.core.entries[id] == entry
    ensures Good(Announce(p, EventPush(event, entry)), w, None)
  {
    hide CoreOk;
    assert CoreOk(p.core);
    KeyOfEntry(p.core, id);
    assert Announce(p, EventPush(event, entry)).out[..|p.out|] == p.out;
  }

  lemma KeyOfEntry(core: Core, id: EventId)
    requires CoreOk(core) && id in core.entries
    ensures core.entries[id].eventId == id
  {
    assert EntryOk(core.entries[id], core.events[id]);
  }

  // ---- client requests and delivery outcomes ------------------------------------------------------

  lemma AckLikeGood(p: Pipe, w: Watch, id: EventId, e: QueueEntry, metrics: Metrics)
    requires Good(p, w, None) && id in p.core.entries
    requires e == Acked(p.core.entries[id]) || e == DismissedEntry(p.core.entries[id])
    ensures var q := SetEntry(p.(core := p.core.(metrics := metrics)), e);
            Good(if e != p.core.entries[id] then Announce(q, StatePush(StateOf(e))) else q, w, None)
  {
    hide Good;
    assert CoreOk(p.core) by { Unpack(p, w, None); }
    KeyOfEntry(p.core, id);
    var q := SetEntry(p.(core := p.core.(metrics := metrics)), e);
    if e != p.core.entries[id] {
      EntryMoved(p, q, w, None, id, e);
      StateAnnounced(q, w, id, StateOf(e));
    } else {
      SameQueue(p, q, w, None);
    }
  }

  lemma Unpack(p: Pipe, w: Watch, lag: Option<EventId>)
    requires Good(p, w, lag)
    ensures CoreOk(p.core)
  {
  }

  lemma UpdateScoreFrame(p: Pipe, id: EventId, now: Time)
    ensures var q := UpdateScore(p, id, now).core;
            && q == p.core.(entries := q.entries)
            && q.entries.Keys == p.core.entries.Keys
            && (forall k :: k in p.core.entries && k != id ==> q.entries[k] == p.core.entries[k])
            && (id in p.core.entries ==> q.entries[id] == p.core.entries[id].(score := q.entries[id].score))
            && UpdateScore(p, id, now).out == (if q.entries == p.core.entries then p.out else p.out + [ToAll(ScorePush(ScoreOf(q.entries[id])))])
  {
  }

  lemma SettleGood(p: Pipe, w: Watch, id: EventId, resolution: Resolution, now: Time, lag: Option<EventId>)
    requires Good(p, w, lag) && (lag == None || lag == Some(id))
    requires id in p.core.entries && p.core.entries[id].resolution == Some(PendingDelivery)
    ensures Good(Settle(p, id, resolution, now), w, None)
  {
    hide Good, UpdateScore;
    assert CoreOk(p.core) by { Unpack(p, w, lag); }
    KeyOfEntry(p.core, id);
    var e := p.core.entries[id].(resolution := Some(resolution));
    var q := p.(core := p.core.(entries := p.core.entries[id := e]));
    EntryMoved(p, q, w, lag, id, e);
    UpdateScoreGood(q, w, Some(id), id, now);
    UpdateScoreFrame(q, id, now);
    StateAnnounced(UpdateScore(q, id, now), w, id, StateOf(e));
  }

  lemma AcceptGood(p: Pipe, w: Watch, client: ClientId, id: EventId, decision: Decision, response: RequestResponse, now: Time)
    requires Good(p, w, None) && id in p.core.entries && p.core.entries[id].resolution == Some(Unresolved)
    ensures var q := AcceptResponse(p, client, id, decision, response, now);
            && Good(q, w, if p.core.responder.Some? then None else Some(id))
            && id in q.core.entries && q.core.entries[id].resolution == Some(PendingDelivery)
            && q.core.events == p.core.events && q.core.responder == p.core.responder
  {
    hide Good, CoreOk, UpdateScore, ResponseText, PinnedAppended, Rescored;
    assert CoreOk(p.core) by { Unpack(p, w, None); }
    KeyOfEntry(p.core, id);
    var e := p.core.entries[id].(resolution := Some(PendingDelivery));
    var pending := p.(core := p.core.(entries := p.core.entries[id := e],
                                      metrics := p.core.metrics.(responses := p.core.metrics.responses + 1)));
    EntryMoved(p, pending, w, None, id, e);
    UpdateScoreGood(pending, w, Some(id), id, now);
    UpdateScoreFrame(pending, id, now);
    var scored := UpdateScore(pending, id, now);
    var announced := if p.core.responder.Some? then Announce(scored, StatePush(StateOf(e))) else scored;
    var lag := if p.core.responder.Some? then None else Some(id);
    if p.core.responder.Some? {
      StateAnnounced(scored, w, id, StateOf(e));
    }
    Forwarded(announced, AcceptResponse(p, client, id, decision, response, now), w, lag, client, id, decision);
  }

  lemma Forwarded(p: Pipe, q: Pipe, w: Watch, lag: Option<EventId>, client: ClientId, id: EventId, decision: Decision)
    requires Good(p, w, lag)
    requires q.core == p.core.(logs := q.core.logs) && q.out == p.out + [ToOthers(client, RespondForward(id, decision))]
    ensures Good(q, w, lag)
  {
    hide CoreOk, Tracks, Complete;
    assert q.out[..|p.out|] == p.out;
    SameCore(p.core, q.core);
  }

  lemma RespondStepGood(p: Pipe, w: Watch, client: ClientId, requestId: Option<string>, id: EventId,
                        decision: Decision, response: RequestResponse, now: Time)
    requires Good(p, w, None)
    ensures Good(RespondStep(p, client, requestId, id, decision, response, now), w, None)
  {
    hide Good, AcceptResponse, Settle, CommandFor, Accepts;
    if id !in p.core.entries {
      ReplyGood(p, w, client, requestId, CommandResult(Some(NoSuchEvent)));
    } else if PriorityQueues.RespondError(p.core.entries[id]).Some? {
      ReplyGood(p, w, client, requestId, CommandResult(PriorityQueues.RespondError(p.core.entries[id])));
    } else {
      AcceptGood(p, w, client, id, decision, response, now);
      var accepted := AcceptResponse(p, client, id, decision, response, now);
      match p.core.responder
      case None =>
        SettleGood(accepted, w, id, ResolutionOf(decision), now, Some(id));
        ReplyGood(Settle(accepted, id, ResolutionOf(decision), now), w, client, requestId, CommandResult(None));
      case Some(ch) =>
        if Accepts(ch) {
          var sent := Sent(ch, CommandFor(p.core, id, decision, response, now));
          var q := accepted.(core := accepted.core.(responder := Some(sent)));
          SameQueue(accepted, q, w, None);
          ReplyGood(q, w, client, requestId, CommandResult(None));
        } else {
          SettleGood(accepted, w, id, Unresolved, now, None);
          ReplyGood(Settle(accepted, id, Unresolved, now), w, client, requestId, CommandResult(Some(DeliveryFailed)));
        }
    }
  }

  lemma DetailsStepGood(p: Pipe, w: Watch, client: ClientId, requestId: Option<string>, id: EventId, now: Time)
    requires Good(p, w, None)
    ensures Good(DetailsStep(p, client, requestId, id, now), w, None)
  {
    hide Good, UpdateScore;
    var seen := p;
    if id in p.core.entries {
      var metrics := p.core.metrics.(detailRefetches := p.core.metrics.detailRefetches + 1);
      var e := Acked(p.core.entries[id]);
      AckLikeGood(p, w, id, e, metrics);
      var counted := p.(core := p.core.(metrics := metrics));
      SameQueue(p, counted, w, None);
      seen := counted;
      if e != p.core.entries[id] {
        var announced := Announce(SetEntry(counted, e), StatePush(StateOf(e)));
        UpdateScoreGood(announced, w, None, id, now);
        seen := UpdateScore(announced, id, now);
      }
    }
    var body := if id in seen.core.events && id in seen.core.entries
                then EventDetails(seen.core.events[id], seen.core.entries[id]) else ErrorReply("no_such_event");
    ReplyGood(seen, w, client, requestId, body);
  }

  lemma ClientStepGood(p: Pipe, w: Watch, client: ClientId, requestId: Option<string>, request: ClientRequest, now: Time)
    requires Good(p, w, None)
    ensures Good(ClientStep(p, client, requestId, request, now), w, None)
  {
    hide Good, LogPrompt, Lines, EventLogs, RespondStep, DetailsStep, Acked;
    match request
    case GetMetrics => ReplyGood(p, w, client, requestId, MetricsReply(p.core.metrics));
    case Ack(id) =>
      if id !in p.core.entries {
        ReplyGood(p, w, client, requestId, CommandResult(Some(NoSuchEvent)));
      } else {
        var e := Acked(p.core.entries[id]);
        var metrics := p.core.metrics.(acks := p.core.metrics.acks + 1);
        AckLikeGood(p, w, id, e, metrics);
        var q := SetEntry(p.(core := p.core.(metrics := metrics)), e);
        ReplyGood(if e != p.core.entries[id] then Announce(q, StatePush(StateOf(e))) else q, w,
                  client, requestId, CommandResult(None));
      }
    case Dismiss(id) =>
      if id !in p.core.entries {
        ReplyGood(p, w, client, requestId, CommandResult(Some(NoSuchEvent)));
      } else {
        var e := DismissedEntry(p.core.entries[id]);
        var metrics := p.core.metrics.(dismissals := p.core.metrics.dismissals + 1);
        AckLikeGood(p, w, id, e, metrics);
        var q := SetEntry(p.(core := p.core.(metrics := metrics)), e);
        ReplyGood(if e != p.core.entries[id] then Announce(q, StatePush(StateOf(e))) else q, w,
                  client, requestId, CommandResult(None));
      }
    case Respond(id, decision, selected, text) =>
      RespondStepGood(p, w, client, requestId, id, decision, FromRespondRequest(decision, selected, text), now);
    case GetEventDetails(id) => DetailsStepGood(p, w, client, requestId, id, now);
    case GetEventLogs(id, offset, limit) =>
      var counted := p.(core := p.core.(metrics := p.core.metrics.(logPageRequests := p.core.metrics.logPageRequests + 1)));
      SameQueue(p, counted, w, None);
      var found := EventLogs(p.core.logs, id, offset, limit);
      ReplyGood(counted, w, client, requestId,
                if found.Some? then EventLogsReply(id, found.value) else CommandResult(Some(NoSuchEvent)));
    case StartTask(prompt, agentId) =>
      var q := StartTaskStep(p, client, requestId, prompt, agentId, now);
      var logged := p.(core := q.core);
      SameQueue(p, logged, w, None);
      PromptAnnounced(logged, w, prompt);
      ReplyGood(Announce(logged, StartTaskPush(prompt)), w, client, requestId, CommandResult(None));
    case BridgeMessage => ReplyGood(p, w, client, requestId, ErrorReply("unsupported"));
    case OtherMessage => ReplyGood(p, w, client, requestId, ErrorReply("unsupported"));
  }

  lemma PromptAnnounced(p: Pipe, w: Watch, prompt: string)
    requires Good(p, w, None)
    ensures Good(Announce(p, StartTaskPush(prompt)), w, None)
  {
    assert Announce(p, StartTaskPush(prompt)).out[..|p.out|] == p.out;
  }

  lemma OutcomeStepGood(p: Pipe, w: Watch, outcome: AdapterOutcome, now: Time)
    requires Good(p, w, None)
    ensures Good(OutcomeStep(p, outcome, now), w, None)
  {
    hide Good;
    if outcome.id in p.core.entries && p.core.entries[outcome.id].resolution == Some(PendingDelivery) {
      SettleGood(p, w, outcome.id, if outcome.Delivered? then ResolutionOf(outcome.decision) else Unresolved, now, None);
    }
  }

  // ---- snapshots ----------------------------------------------------------------------------------

  lemma {:induction false} InsertAll(v: View, entries: seq<QueueEntry>, queue: Entries)
    requires Tracks(v, queue, None)
    requires forall e :: e in entries ==> e.eventId in queue && queue[e.eventId] == e
    ensures Tracks(Merge(v, entries), queue, None)
    ensures forall id :: id in Merge(v, entries) <==> id in v || exists e :: e in entries && e.eventId == id
  {
    if entries != [] {
      var last := |entries| - 1;
      InsertAll(v, entries[..last], queue);
      assert entries == entries[..last] + [entries[last]];
    }
  }

  /** A client that was just sent a snapshot knows every live event. */
  lemma SnapshotGood(p: Pipe, w: Watch, client: ClientId)
    requires Good(p, w, None) && w.missing == {}
    ensures Good(Reply(p, client, None, SnapshotBody(p.core)), w.(full := w.full || client == w.client), None)
  {
    hide CoreOk, OrderedSnapshot, EventsOf, Tracks, Complete, Merge, WellKeyed;
    WellKeyedOf(p.core);
    SnapshotCompletes(FoldOut(w.start, p.out, w.client), p.core.entries);
    assert Reply(p, client, None, SnapshotBody(p.core)).out[..|p.out|] == p.out;
  }

  lemma SnapshotCompletes(v: View, queue: Entries)
    requires WellKeyed(queue) && Tracks(v, queue, None)
    ensures var v' := Merge(v, OrderedSnapshot(queue)); Tracks(v', queue, None) && Complete(v', queue, {})
  {
    hide OrderedSnapshot, Merge;
    var entries := OrderedSnapshot(queue);
    SnapshotIsLiveInOrder(queue);
    forall e | e in entries ensures e.eventId in queue && queue[e.eventId] == e {
      assert e in Elements(entries);
    }
    InsertAll(v, entries, queue);
    forall id | id in queue && queue[id].IsLive() ensures id in Merge(v, entries) {
      assert queue[id] in LiveEntries(queue);
      assert queue[id] in Elements(entries);
      assert queue[id].eventId == id;
    }
  }

  lemma WellKeyedOf(core: Core)
    requires CoreOk(core)
    ensures WellKeyed(core.entries)
  {
    CoreOkIsWellKeyed(core);
  }

  // ---- whole steps --------------------------------------------------------------------------------

  /** Every command keeps the core in order and every client's view in agreement with it. */
  lemma StepGood(core: Core, command: Command, now: Time, id: EventId, v: View, client: ClientId, full: bool)
    requires CoreOk(core) && Tracks(v, core.entries, None) && (full ==> Complete(v, core.entries, {}))
    requires id !in core.events
    ensures var p := Step(core, command, now, id);
            var v' := FoldOut(v, p.out, client);
            && CoreOk(p.core) && Tracks(v', p.core.entries, None)
            && (full || command == SendSnapshot(client) ==> Complete(v', p.core.entries, {}))
  {
    hide CoreOk, TickStep, EventStep, ClientStep, OutcomeStep, Tracks, Complete, SnapshotBody;
    var p := Pipe(core, []);
    var w := Watch(v, client, full, {});
    assert Good(p, w, None);
    match command
    case Tick => TickStepGood(p, w, now);
    case AdapterLine(agent, text) => SameQueue(p, LineStep(p, agent, text, now), w, None);
    case AdapterEvent(raw) => EventStepGood(p, w, raw, now, id);
    case FromClient(from, requestId, request) => ClientStepGood(p, w, from, requestId, request, now);
    case SendSnapshot(to) => SnapshotGood(p, w, to);
    case AdapterResponse(outcome) => OutcomeStepGood(p, w, outcome, now);
    case _ =>
  }
}
