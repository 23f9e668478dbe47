/** The queue of mutable entries and the state machine each entry goes through. */
module PriorityQueues {
  import opened Types
  import opened Scoring
  import opened Ordering

  type Entries = map<EventId, QueueEntry>
  type Events = map<EventId, Event>

  // ---- ordering -------------------------------------------------------------------------------

  /** Lower tier first, then higher score, then newer. */
  predicate ByOrderKey(a: QueueEntry, b: QueueEntry) {
    a.tier < b.tier || (a.tier == b.tier &&
      (a.score > b.score || (a.score == b.score && a.seqNo >= b.seqNo)))
  }

  predicate ByEventId(a: ScoreUpdate, b: ScoreUpdate) {
    a.eventId <= b.eventId
  }

  ghost function LiveEntries(entries: Entries): set<QueueEntry> {
    set id | id in entries && entries[id].IsLive() :: entries[id]
  }

  /** Every entry is filed under its own id, and no two entries share a sequence number. */
  ghost predicate WellKeyed(entries: Entries) {
    && (forall id :: id in entries ==> entries[id].eventId == id)
    && (forall a, b :: a in entries && b in entries && entries[a].seqNo == entries[b].seqNo ==> a == b)
  }

  ghost function OrderedSnapshot(entries: Entries): seq<QueueEntry> {
    Arrange(LiveEntries(entries), ByOrderKey)
  }

  lemma OrderKeySeparates(entries: Entries)
    requires WellKeyed(entries)
    ensures TotalPreorder(ByOrderKey) && Separates(LiveEntries(entries), ByOrderKey)
  {
  }

  /** The snapshot lists each live entry once, strictly ordered by its key. */
  lemma SnapshotIsLiveInOrder(entries: Entries)
    requires WellKeyed(entries)
    ensures Elements(OrderedSnapshot(entries)) == LiveEntries(entries)
    ensures StrictlySorted(OrderedSnapshot(entries), ByOrderKey)
  {
    OrderKeySeparates(entries);
    ArrangeSorted(LiveEntries(entries), ByOrderKey);
  }

  // ---- transitions ----------------------------------------------------------------------------

  function StateOf(e: QueueEntry): StateUpdate {
    StateUpdate(e.eventId, e.state, e.resolution, e.superseded)
  }

  function Acked(e: QueueEntry): QueueEntry {
    if e.state == New then e.(state := Seen) else e
  }

  function DismissedEntry(e: QueueEntry): QueueEntry {
    e.(state := Dismissed)
  }

  function RespondError(e: QueueEntry): Option<CommandError> {
    match e.resolution
    case None => Some(NotARequest)
    case Some(Approved) => Some(AlreadyResolved)
    case Some(Denied) => Some(AlreadyResolved)
    case Some(PendingDelivery) => Some(DeliveryPending)
    case Some(Unresolved) => None
  }

  function ResolutionOf(decision: Decision): Resolution {
    match decision
    case Approve => Approved
    case Deny => Denied
  }

  /** Answered or in-flight requests are not superseded. */
  predicate Spared(e: QueueEntry) {
    e.resolution == Some(Approved) || e.resolution == Some(Denied) || e.resolution == Some(PendingDelivery)
  }

  function Superseded(e: QueueEntry): QueueEntry {
    if Spared(e) then e else e.(superseded := true)
  }

  /** The documented life of a request's resolution. */
  predicate LifecycleEdge(before: Option<Resolution>, after: Option<Resolution>) {
    || before == after
    || (before == Some(Unresolved) && after == Some(PendingDelivery))
    || (before == Some(PendingDelivery) && after.Some? && after.value != PendingDelivery)
  }

  // ---- scores ---------------------------------------------------------------------------------

  function Rescored(e: QueueEntry, events: Events, now: Time): QueueEntry {
    if e.eventId in events then e.(score := Score(e, events[e.eventId], now)) else e
  }

  function RescoredEntries(entries: Entries, events: Events, now: Time): Entries {
    map id | id in entries ::
      if entries[id].IsLive() then Rescored(entries[id], events, now) else entries[id]
  }

  function ScoreOf(e: QueueEntry): ScoreUpdate {
    ScoreUpdate(e.eventId, e.score, e.escalationLevel)
  }

  ghost function ScoreChanges(before: Entries, after: Entries): set<ScoreUpdate>
    requires before.Keys <= after.Keys
  {
    set id | id in before && after[id].score != before[id].score :: ScoreOf(after[id])
  }

  ghost function RescoreUpdates(entries: Entries, events: Events, now: Time): seq<ScoreUpdate> {
    Arrange(ScoreChanges(entries, RescoredEntries(entries, events, now)), ByEventId)
  }

  /** `updates` reports, once each, the ids in `done` whose score changed. */
  ghost predicate ChangesReported(before: Entries, after: Entries, done: set<EventId>, updates: seq<ScoreUpdate>)
    requires before.Keys == after.Keys
  {
    && (forall i :: 0 <= i < |updates| ==> var id := updates[i].eventId;
          id in done && id in before && after[id].score != before[id].score && updates[i] == ScoreOf(after[id]))
    && (forall id :: id in done && id in before && after[id].score != before[id].score ==> ScoreOf(after[id]) in updates)
    && NoDuplicates(updates)
  }

  lemma ReportOne(before: Entries, after: Entries, done: set<EventId>, id: EventId,
                  reported: seq<ScoreUpdate>, updates: seq<ScoreUpdate>)
    requires before.Keys == after.Keys && id in before && id !in done
    requires WellKeyed(before) && after[id].eventId == id
    requires forall k :: k in after ==> after[k].eventId == k
    requires ChangesReported(before, after, done, reported)
    requires updates == if after[id].score != before[id].score then reported + [ScoreOf(after[id])] else reported
    ensures ChangesReported(before, after, done + {id}, updates)
  {
  }

  lemma NothingReported(before: Entries, after: Entries)
    requires before.Keys == after.Keys
    ensures ChangesReported(before, after, before.Keys - before.Keys, [])
  {
  }

  lemma ReportedInOrder(before: Entries, events: Events, now: Time, updates: seq<ScoreUpdate>)
    requires WellKeyed(before)
    requires var after := RescoredEntries(before, events, now); ChangesReported(before, after, before.Keys, updates)
    ensures Sort(updates, ByEventId) == RescoreUpdates(before, events, now)
  {
    var after := RescoredEntries(before, events, now);
    assert Elements(updates) == ScoreChanges(before, after);
    ArrangeIsSort(ScoreChanges(before, after), updates, ByEventId);
  }

  lemma GoalKeyed(before: Entries, events: Events, now: Time)
    requires WellKeyed(before)
    ensures var goal := RescoredEntries(before, events, now);
            goal.Keys == before.Keys && WellKeyed(goal) && forall k :: k in goal ==> goal[k].eventId == k
  {
    hide Score;
  }

  lemma GoalAt(before: Entries, events: Events, now: Time, id: EventId)
    requires id in before
    ensures var goal := RescoredEntries(before, events, now);
            id in goal && goal[id] == if before[id].IsLive() then Rescored(before[id], events, now) else before[id]
  {
  }

  class PriorityQueue {
    var entries: Entries

    constructor ()
      ensures entries == map[]
    {
      entries := map[];
    }

    method Insert(entry: QueueEntry)
      modifies this
      ensures entries == old(entries)[entry.eventId := entry]
    {
      entries := entries[entry.eventId := entry];
    }

    method OrderedSnapshotNow() returns (live: seq<QueueEntry>)
      requires WellKeyed(entries)
      ensures live == OrderedSnapshot(entries)
    {
      live := [];
      var todo := entries.Keys;
      while todo != {}
        invariant todo <= entries.Keys
        invariant forall i :: 0 <= i < |live| ==> var id := live[i].eventId;
                    id in entries && id !in todo && entries[id].IsLive() && live[i] == entries[id]
        invariant forall id :: id in entries && id !in todo && entries[id].IsLive() ==> entries[id] in live
        invariant NoDuplicates(live)
        decreases todo
      {
        var id :| id in todo;
        todo := todo - {id};
        if entries[id].IsLive() {
          live := live + [entries[id]];
        }
      }
      OrderKeySeparates(entries);
      assert Elements(live) == LiveEntries(entries);
      ArrangeIsSort(LiveEntries(entries), live, ByOrderKey);
      live := Sort(live, ByOrderKey);
    }

    /** Re-scores one entry if it is live; reports it when its score changed. */
    method RescoreOne(id: EventId, events: Events, now: Time) returns (update: Option<ScoreUpdate>)
      requires id in entries
      modifies this
      ensures var before := old(entries)[id];
              var after := if before.IsLive() then Rescored(before, events, now) else before;
              && entries == old(entries)[id := after]
              && update == if after.score != before.score then Some(ScoreOf(after)) else None
    {
      hide Score;
      var entry := entries[id];
      update := None;
      if entry.IsLive() && entry.eventId in events {
        var newScore := Score(entry, events[entry.eventId], now);
        if newScore != entry.score {
          entries := entries[id := entry.(score := newScore)];
          update := Some(ScoreUpdate(entry.eventId, newScore, entry.escalationLevel));
        }
      }
    }

    /** Re-scores every live entry; reports the changed ones by increasing id. */
    method Rescore(events: Events, now: Time) returns (updates: seq<ScoreUpdate>)
      requires WellKeyed(entries)
      modifies this
      ensures WellKeyed(entries)
      ensures entries == RescoredEntries(old(entries), events, now)
      ensures updates == RescoreUpdates(old(entries), events, now)
    {
      hide Rescored, RescoredEntries, RescoreUpdates, WellKeyed, Sort, ChangesReported;
      updates := [];
      ghost var before := entries;
      ghost var goal := RescoredEntries(entries, events, now);
      GoalKeyed(before, events, now);
      NothingReported(before, goal);
      var todo := entries.Keys;
      while todo != {}
        invariant todo <= before.Keys == entries.Keys
        invariant forall id :: id in todo ==> entries[id] == before[id]
        invariant forall id :: id in before && id !in todo ==> entries[id] == goal[id]
        invariant ChangesReported(before, goal, before.Keys - todo, updates)
        decreases todo
      {
        var id :| id in todo;
        ghost var done, reported := before.Keys - todo, updates;
        todo := todo - {id};
        assert before.Keys - todo == done + {id};
        GoalAt(before, events, now, id);
        var update := RescoreOne(id, events, now);
        if update.Some? {
          updates := updates + [update.value];
        }
        ReportOne(before, goal, done, id, reported, updates);
      }
      assert before.Keys - todo == before.Keys;
      assert entries == goal;
      ReportedInOrder(before, events, now, updates);
      updates := Sort(updates, ByEventId);
    }

    /** Recomputes one score; reports it when it changed. */
    method UpdateEntryScore(id: EventId, events: Events, now: Time) returns (update: Option<ScoreUpdate>)
      requires WellKeyed(entries)
      modifies this
      ensures WellKeyed(entries)
      ensures id !in old(entries) ==> update == None && entries == old(entries)
      ensures id in old(entries) ==>
                var e := Rescored(old(entries)[id], events, now);
                && entries == old(entries)[id := e]
                && update == if e.score != old(entries)[id].score then Some(ScoreOf(e)) else None
    {
      update := None;
      if id in entries && id in events {
        var entry := entries[id];
        var newScore := Score(entry, events[id], now);
        if newScore != entry.score {
          entries := entries[id := entry.(score := newScore)];
          update := Some(ScoreUpdate(id, newScore, entry.escalationLevel));
        }
      }
    }

    method Ack(id: EventId) returns (r: Result<Option<StateUpdate>, CommandError>)
      requires WellKeyed(entries)
      modifies this
      ensures WellKeyed(entries)
      ensures id !in old(entries) ==> r == Err(NoSuchEvent) && entries == old(entries)
      ensures id in old(entries) ==>
                var e := Acked(old(entries)[id]);
                && entries == old(entries)[id := e]
                && r == Ok(if old(entries)[id].state == New then Some(StateOf(e)) else None)
    {
      if id !in entries {
        return Err(NoSuchEvent);
      }
      var entry := entries[id];
      if entry.state == New {
        entry := entry.(state := Seen);
        entries := entries[id := entry];
        r := Ok(Some(StateUpdate(id, entry.state, entry.resolution, entry.superseded)));
      } else {
        r := Ok(None);
      }
    }

    method Dismiss(id: EventId) returns (r: Result<Option<StateUpdate>, CommandError>)
      requires WellKeyed(entries)
      modifies this
      ensures WellKeyed(entries)
      ensures id !in old(entries) ==> r == Err(NoSuchEvent) && entries == old(entries)
      ensures id in old(entries) ==>
                var e := DismissedEntry(old(entries)[id]);
                && entries == old(entries)[id := e]
                && r == Ok(if old(entries)[id].state != Dismissed then Some(StateOf(e)) else None)
    {
      if id !in entries {
        return Err(NoSuchEvent);
      }
      var entry := entries[id];
      if entry.state != Dismissed {
        entry := entry.(state := Dismissed);
        entries := entries[id := entry];
        r := Ok(Some(StateUpdate(id, entry.state, entry.resolution, entry.superseded)));
      } else {
        r := Ok(None);
      }
    }

    /** A human answered: unresolved becomes pending delivery. */
    method RespondRequest(id: EventId) returns (r: Result<StateUpdate, CommandError>)
      requires WellKeyed(entries)
      modifies this
      ensures WellKeyed(entries)
      ensures id !in old(entries) ==> r == Err(NoSuchEvent) && entries == old(entries)
      ensures id in old(entries) ==>
                match RespondError(old(entries)[id])
                case Some(error) => r == Err(error) && entries == old(entries)
                case None =>
                  var e := old(entries)[id].(resolution := Some(PendingDelivery));
                  entries == old(entries)[id := e] && r == Ok(StateOf(e))
    {
      if id !in entries {
        return Err(NoSuchEvent);
      }
      var entry := entries[id];
      match entry.resolution
      case None => r := Err(NotARequest);
      case Some(Approved) => r := Err(AlreadyResolved);
      case Some(Denied) => r := Err(AlreadyResolved);
      case Some(PendingDelivery) => r := Err(DeliveryPending);
      case Some(Unresolved) =>
        entry := entry.(resolution := Some(PendingDelivery));
        entries := entries[id := entry];
        r := Ok(StateUpdate(id, entry.state, entry.resolution, entry.superseded));
    }

    /** Delivery confirmed: pending delivery becomes the decision. */
    method MarkDelivered(id: EventId, decision: Decision) returns (r: Result<StateUpdate, CommandError>)
      requires WellKeyed(entries)
      modifies this
      ensures WellKeyed(entries)
      ensures id !in old(entries) ==> r == Err(NoSuchEvent) && entries == old(entries)
      ensures id in old(entries) ==>
                if old(entries)[id].resolution != Some(PendingDelivery)
                then r == Err(AlreadyResolved) && entries == old(entries)
                else
                  var e := old(entries)[id].(resolution := Some(ResolutionOf(decision)));
                  entries == old(entries)[id := e] && r == Ok(StateOf(e))
    {
      if id !in entries {
        return Err(NoSuchEvent);
      }
      var entry := entries[id];
      if entry.resolution != Some(PendingDelivery) {
        return Err(AlreadyResolved);
      }
      entry := entry.(resolution := Some(match decision case Approve => Approved case Deny => Denied));
      entries := entries[id := entry];
      r := Ok(StateUpdate(id, entry.state, entry.resolution, entry.superseded));
    }

    /** Delivery failed: pending delivery is reopened. */
    method MarkDeliveryFailed(id: EventId) returns (r: Result<StateUpdate, CommandError>)
      requires WellKeyed(entries)
      modifies this
      ensures WellKeyed(entries)
      ensures id !in old(entries) ==> r == Err(NoSuchEvent) && entries == old(entries)
      ensures id in old(entries) ==>
                if old(entries)[id].resolution != Some(PendingDelivery)
                then r == Err(AlreadyResolved) && entries == old(entries)
                else
                  var e := old(entries)[id].(resolution := Some(Unresolved));
                  entries == old(entries)[id := e] && r == Ok(StateOf(e))
    {
      if id !in entries {
        return Err(NoSuchEvent);
      }
      var entry := entries[id];
      if entry.resolution != Some(PendingDelivery) {
        return Err(AlreadyResolved);
      }
      entry := entry.(resolution := Some(Unresolved));
      entries := entries[id := entry];
      r := Ok(StateUpdate(id, entry.state, entry.resolution, entry.superseded));
    }

    method Escalate(id: EventId, level: nat) returns (r: Result<Option<ScoreUpdate>, CommandError>)
      requires WellKeyed(entries)
      modifies this
      ensures WellKeyed(entries)
      ensures id !in old(entries) ==> r == Err(NoSuchEvent) && entries == old(entries)
      ensures id in old(entries) ==>
                var e := old(entries)[id].(escalationLevel := level);
                && entries == old(entries)[id := e]
                && r == Ok(if old(entries)[id].escalationLevel != level then Some(ScoreOf(e)) else None)
    {
      if id !in entries {
        return Err(NoSuchEvent);
      }
      var entry := entries[id];
      if entry.escalationLevel != level {
        entry := entry.(escalationLevel := level);
        entries := entries[id := entry];
        r := Ok(Some(ScoreUpdate(id, entry.score, entry.escalationLevel)));
      } else {
        r := Ok(None);
      }
    }

    method Supersede(id: EventId) returns (r: Result<Option<StateUpdate>, CommandError>)
      requires WellKeyed(entries)
      modifies this
      ensures WellKeyed(entries)
      ensures id !in old(entries) ==> r == Err(NoSuchEvent) && entries == old(entries)
      ensures id in old(entries) ==>
                var e := Superseded(old(entries)[id]);
                && entries == old(entries)[id := e]
                && r == Ok(if e != old(entries)[id] then Some(StateOf(e)) else None)
    {
      if id !in entries {
        return Err(NoSuchEvent);
      }
      var entry := entries[id];
      if entry.resolution == Some(Approved) || entry.resolution == Some(Denied)
         || entry.resolution == Some(PendingDelivery) {
        return Ok(None);
      }
      if !entry.superseded {
        entry := entry.(superseded := true);
        entries := entries[id := entry];
        r := Ok(Some(StateUpdate(id, entry.state, entry.resolution, true)));
      } else {
        r := Ok(None);
      }
    }
  }
}
