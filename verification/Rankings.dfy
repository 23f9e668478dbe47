/** What comes first in the list that clients see. */
module Rankings {
  import opened Types
  import opened Ordering
  import opened Scoring
  import opened Classifier
  import opened PriorityQueues
  import opened CoreMachine
  import opened Coherence
  import opened Clients
  import opened Delivery

  /** Requests, then errors, then completions, then work. */
  ghost predicate NotAfter(a: Category, b: Category) {
    || a == Request
    || (a == Error && b != Request)
    || (a == Completed && b != Request && b != Error)
    || (a == Working && b == Working)
  }

  /** The list that clients see: every request before every error, every error before every completion and
      every completion before all work; within a category the higher score first, and of equal scores the
      newer event. */
  lemma SnapshotOrder(core: Core, i: nat, j: nat)
    requires CoreOk(core) && i < j < |OrderedSnapshot(core.entries)|
    ensures var a, b := OrderedSnapshot(core.entries)[i], OrderedSnapshot(core.entries)[j];
            && a.eventId in core.events && b.eventId in core.events
            && var x, y := core.events[a.eventId], core.events[b.eventId];
               && NotAfter(x.category, y.category)
               && (x.category == y.category ==> a.score > b.score || (a.score == b.score && x.seqNo > y.seqNo))
  {
    hide CoreOk, LiveEntries, OrderedSnapshot;
    WellKeyedOf(core);
    SnapshotIsLiveInOrder(core.entries);
    var listed := OrderedSnapshot(core.entries);
    ListedIsStored(core, i);
    ListedIsStored(core, j);
    assert ByOrderKey(listed[i], listed[j]) && !ByOrderKey(listed[j], listed[i]);
  }

  lemma ListedIsStored(core: Core, i: nat)
    requires CoreOk(core) && i < |OrderedSnapshot(core.entries)|
    ensures var e := OrderedSnapshot(core.entries)[i];
            && e.eventId in core.events && e.eventId in core.entries && core.entries[e.eventId] == e && e.IsLive()
            && var event := core.events[e.eventId];
               e.seqNo == event.seqNo &&
               e.tier == (match event.category case Request => 0 case Error => 1 case Completed => 2 case Working => 3)
  {
    hide CoreOk, OrderedSnapshot, EntryOk;
    WellKeyedOf(core);
    SnapshotIsLiveInOrder(core.entries);
    var e := OrderedSnapshot(core.entries)[i];
    assert e in Elements(OrderedSnapshot(core.entries));
    assert e in LiveEntries(core.entries);
    EntryStored(core, e.eventId);
  }

  lemma EntryStored(core: Core, id: EventId)
    requires CoreOk(core) && id in core.entries
    ensures id in core.events && core.entries[id].seqNo == core.events[id].seqNo
    ensures core.entries[id].eventId == id && core.events[id].eventId == id
    ensures core.entries[id].tier ==
              match core.events[id].category case Request => 0 case Error => 1 case Completed => 2 case Working => 3
    ensures Ordinary(core.entries[id], core.events[id])
  {
    assert EntryOk(core.entries[id], core.events[id]);
  }

  /** Two entries that differ only in their severity, as far as ranking goes. */
  ghost predicate GraverTwin(core: Core, id: EventId, graver: EventId, now: Time)
    requires id in core.entries && graver in core.entries && id in core.events && graver in core.events
  {
    var e, f, x, y := core.entries[id], core.entries[graver], core.events[id], core.events[graver];
    && x.category == y.category && x.ts == y.ts && Gravity(x.severity) < Gravity(y.severity)
    && e.state == f.state && e.resolution == f.resolution && e.escalationLevel == f.escalationLevel
    && e.score == Score(e, x, now) && f.score == Score(f, y, now)
  }

  /** Of two live entries that differ only in severity, the graver comes first, unless both scored zero. */
  lemma GraverFirst(core: Core, id: EventId, graver: EventId, now: Time, i: nat, j: nat)
    requires CoreOk(core) && id in core.entries && graver in core.entries && id in core.events && graver in core.events
    requires GraverTwin(core, id, graver, now) && core.entries[id].score > 0
    requires i < |OrderedSnapshot(core.entries)| && OrderedSnapshot(core.entries)[i] == core.entries[id]
    requires j < |OrderedSnapshot(core.entries)| && OrderedSnapshot(core.entries)[j] == core.entries[graver]
    ensures j < i
  {
    hide CoreOk, OrderedSnapshot, Score;
    EntryStored(core, id);
    EntryStored(core, graver);
    var e, f, x, y := core.entries[id], core.entries[graver], core.events[id], core.events[graver];
    SameScore(e, f, y, now);
    SeverityRaisesScore(e, x, y, now);
    BelowTop(e, x, now);
    if i < j {
      SnapshotOrder(core, i, j);
    }
  }

  lemma SameScore(e: QueueEntry, f: QueueEntry, event: Event, now: Time)
    requires e.state == f.state && e.resolution == f.resolution && e.escalationLevel == f.escalationLevel
    ensures Score(e, event, now) == Score(f, event, now)
  {
  }

  lemma BelowTop(e: QueueEntry, event: Event, now: Time)
    requires Ordinary(e, event)
    ensures Score(e, event, now) <= 90
  {
  }
}
