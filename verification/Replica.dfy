/** The client-side replica: a fold over the messages received. */
module Replica {
  import opened Types
  import opened PriorityQueues
  import opened CoreMachine

  /** The entries a client holds, by id. */
  type View = map<EventId, QueueEntry>

  function Merge(v: View, entries: seq<QueueEntry>): View {
    if entries == [] then v
    else
      var last := entries[|entries| - 1];
      Merge(v, entries[..|entries| - 1])[last.eventId := last]
  }

  function Apply(v: View, body: Body): View {
    match body
    case EventPush(event, entry) => v[entry.eventId := entry]
    case ScorePush(u) =>
      if u.eventId in v
      then v[u.eventId := v[u.eventId].(score := u.score, escalationLevel := u.escalationLevel)]
      else v
    case StatePush(u) =>
      if u.eventId in v
      then v[u.eventId := v[u.eventId].(state := u.state, resolution := u.resolution, superseded := u.superseded)]
      else v
    case Snapshot(entries, events) => Merge(v, entries)
    case _ => v
  }

  function Fold(v: View, bodies: seq<Body>): View {
    if bodies == [] then v else Apply(Fold(v, bodies[..|bodies| - 1]), bodies[|bodies| - 1])
  }

  lemma {:induction false} FoldAppend(v: View, first: seq<Body>, second: seq<Body>)
    ensures Fold(v, first + second) == Fold(Fold(v, first), second)
  {
    if second == [] {
      assert first + second == first;
    } else {
      var last := |second| - 1;
      assert (first + second)[..|first + second| - 1] == first + second[..last];
      FoldAppend(v, first, second[..last]);
    }
  }

  /** Counters a client keeps about what it received. */
  datatype Counters = Counters(summariesRendered: nat, duplicates: nat, scoreUpdates: nat, stateUpdates: nat)

  /** The stored events after a snapshot. */
  function Stored(events: Events, more: seq<Event>): Events {
    if more == [] then events
    else
      var last := more[|more| - 1];
      Stored(events, more[..|more| - 1])[last.eventId := last]
  }

  function Counted(c: Counters, known: set<EventId>, body: Body): Counters {
    match body
    case EventPush(event, _) => if event.eventId in known then c.(duplicates := c.duplicates + 1) else c
    case ScorePush(_) => c.(scoreUpdates := c.scoreUpdates + 1)
    case StatePush(_) => c.(stateUpdates := c.stateUpdates + 1)
    case _ => c
  }

  /** The highest level seen of each task. */
  function Escalated(levels: map<TaskId, nat>, events: Events, body: Body): map<TaskId, nat> {
    match body
    case ScorePush(u) =>
      if u.escalationLevel > 0 && u.eventId in events && events[u.eventId].taskId.Some? then
        var task := events[u.eventId].taskId.value;
        levels[task := Max(if task in levels then levels[task] else 0, u.escalationLevel)]
      else levels
    case _ => levels
  }

  class FakeClient {
    var counters: Counters
    var knownEvents: set<EventId>
    var eventsById: Events
    var entriesById: View
    var observedEscalations: map<TaskId, nat>

    constructor ()
      ensures entriesById == map[] && eventsById == map[] && knownEvents == {} && observedEscalations == map[]
      ensures counters == Counters(0, 0, 0, 0)
    {
      counters := Counters(0, 0, 0, 0);
      knownEvents, eventsById, entriesById, observedEscalations := {}, map[], map[], map[];
    }

    method StoreEvents(events: seq<Event>)
      modifies this`knownEvents, this`eventsById
      ensures eventsById == Stored(old(eventsById), events)
      ensures knownEvents == old(knownEvents) + (set e | e in events :: e.eventId)
    {
      for i := 0 to |events|
        invariant eventsById == Stored(old(eventsById), events[..i])
        invariant knownEvents == old(knownEvents) + (set e | e in events[..i] :: e.eventId)
      {
        assert events[..i + 1] == events[..i] + [events[i]] && events[..i + 1][..i] == events[..i];
        knownEvents := knownEvents + {events[i].eventId};
        eventsById := eventsById[events[i].eventId := events[i]];
      }
      assert events[..|events|] == events;
    }

    method MergeEntries(entries: seq<QueueEntry>)
      modifies this`entriesById
      ensures entriesById == Merge(old(entriesById), entries)
    {
      for i := 0 to |entries|
        invariant entriesById == Merge(old(entriesById), entries[..i])
      {
        assert entries[..i + 1][..i] == entries[..i];
        entriesById := entriesById[entries[i].eventId := entries[i]];
      }
      assert entries[..|entries|] == entries;
    }

    method HandleMessage(message: Message)
      modifies this
      ensures entriesById == Apply(old(entriesById), message.body)
      ensures counters == Counted(old(counters), old(knownEvents), message.body)
      ensures observedEscalations == Escalated(old(observedEscalations), old(eventsById), message.body)
      ensures match message.body
              case EventPush(event, _) =>
                eventsById == old(eventsById)[event.eventId := event] && knownEvents == old(knownEvents) + {event.eventId}
              case Snapshot(_, events) =>
                && eventsById == Stored(old(eventsById), events)
                && knownEvents == old(knownEvents) + (set e | e in events :: e.eventId)
              case _ => eventsById == old(eventsById) && knownEvents == old(knownEvents)
    {
      hide Merge, Stored;
      match message.body
      case EventPush(event, entry) =>
        if event.eventId in knownEvents {
          counters := counters.(duplicates := counters.duplicates + 1);
        }
        knownEvents := knownEvents + {event.eventId};
        eventsById := eventsById[event.eventId := event];
        entriesById := entriesById[entry.eventId := entry];
      case ScorePush(u) =>
        counters := counters.(scoreUpdates := counters.scoreUpdates + 1);
        if u.eventId in entriesById {
          entriesById := entriesById[u.eventId :=
            entriesById[u.eventId].(score := u.score, escalationLevel := u.escalationLevel)];
        }
        if u.escalationLevel > 0 && u.eventId in eventsById && eventsById[u.eventId].taskId.Some? {
          var task := eventsById[u.eventId].taskId.value;
          var seen := if task in observedEscalations then observedEscalations[task] else 0;
          observedEscalations := observedEscalations[task := Max(seen, u.escalationLevel)];
        }
      case StatePush(u) =>
        counters := counters.(stateUpdates := counters.stateUpdates + 1);
        if u.eventId in entriesById {
          entriesById := entriesById[u.eventId :=
            entriesById[u.eventId].(state := u.state, resolution := u.resolution, superseded := u.superseded)];
        }
      case Snapshot(entries, events) =>
        MergeEntries(entries);
        StoreEvents(events);
      case _ =>
    }
  }
}
