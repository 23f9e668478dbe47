/** Escalation levels and scores after every tick. */
module Watchdog {
  import opened Types
  import opened Ordering
  import opened Scoring
  import opened PriorityQueues
  import opened Tracker
  import opened LogStores
  import opened CoreMachine
  import opened Coherence
  import opened Clients
  import opened Delivery
  import opened Agreement

  /** The level that a task's running time calls for. */
  function CalledFor(task: OpenTask, thresholds: ThresholdTable, now: Time): nat {
    var elapsed, expected := now - task.startedAt, thresholds.Expected(task.operation);
    if elapsed >= 2 * expected then 2 else if elapsed >= expected then 1 else 0
  }

  /** No task is ahead of its running time, and without a working event it is at level zero. */
  ghost predicate LevelsOk(core: Core, clock: Time) {
    forall t :: t in core.open ==>
      && core.open[t].level <= CalledFor(core.open[t], core.thresholds, clock)
      && (core.open[t].latestWorking.None? ==> core.open[t].level == 0)
  }

  lemma LevelsKept(core: Core, input: Input, clock: Time)
    requires CoreOk(core) && LevelsOk(core, clock) && clock <= input.now && input.freshId !in core.events
    requires core.thresholds.NonNegative()
    ensures var core' := Step(core, input.command, input.now, input.freshId).core;
            LevelsOk(core', input.now) && core'.thresholds == core.thresholds
  {
    hide Step, CoreOk;
    var core' := Step(core, input.command, input.now, input.freshId).core;
    if input.command.AdapterEvent? && !Malformed(input.command.raw) {
      EventLevels(core, input.command.raw, input.now, input.freshId, clock);
    } else {
      if input.command.AdapterEvent? {
        DroppedFrame(core, input.command.raw, input.now, input.freshId);
      } else {
        KeysAgree(core);
        QuietFrame(core, input.command, input.now, input.freshId);
      }
      forall t | t in core'.open
        ensures core'.open[t].level <= CalledFor(core'.open[t], core'.thresholds, input.now)
        ensures core'.open[t].latestWorking.None? ==> core'.open[t].level == 0
      {
        assert core.thresholds.Expected(core.open[t].operation) >= 0;
      }
    }
  }

  lemma EventLevels(core: Core, raw: RawEvent, now: Time, id: EventId, clock: Time)
    requires LevelsOk(core, clock) && clock <= now && !Malformed(raw) && core.thresholds.NonNegative()
    ensures var core' := Step(core, AdapterEvent(raw), now, id).core;
            LevelsOk(core', now) && core'.thresholds == core.thresholds
  {
    hide Malformed, MakeEvent, MakeLogs, MakeMetrics, SupersedeAll;
    var event := MakeEvent(core, raw, now, id);
    var observed := Pipe(Processed(core, raw, now, id).(open := Observed(core.open, event).0), []);
    SupersedeAllMarks(observed, Displaced(core, event));
    var core' := Step(core, AdapterEvent(raw), now, id).core;
    forall t | t in core'.open
      ensures core'.open[t].level <= CalledFor(core'.open[t], core'.thresholds, now)
      ensures core'.open[t].latestWorking.None? ==> core'.open[t].level == 0
    {
      if t in core.open {
        assert core.thresholds.Expected(core.open[t].operation) >= 0;
      }
    }
  }

  lemma {:induction false} RunLevels(states: seq<System>, inputs: seq<Input>, i: nat)
    requires Run(states, inputs) && i < |states| && states[0].core.thresholds.NonNegative()
    ensures LevelsOk(states[i].core, states[i].clock) && states[i].core.thresholds == states[0].core.thresholds
  {
    hide LevelsOk, CoreOk, Step;
    if i == 0 {
      assert LevelsOk(states[0].core, states[0].clock) by { InitialLevels(states[0]); }
    } else {
      RunLevels(states, inputs, i - 1);
      RunOk(states, inputs, i - 1);
      assert Next(states[i - 1], inputs[i - 1], states[i]);
      LevelsKept(states[i - 1].core, inputs[i - 1], states[i - 1].clock);
    }
  }

  lemma InitialLevels(s: System)
    requires Initial(s)
    ensures LevelsOk(s.core, s.clock)
  {
  }

  /** After a tick, every open task with a working event is at exactly the level its running time
      calls for. */
  lemma TickLevelsExact(states: seq<System>, inputs: seq<Input>, i: nat, t: TaskId)
    requires Run(states, inputs) && i < |inputs| && inputs[i].command.Tick?
    requires states[0].core.thresholds.NonNegative()
    requires t in states[i + 1].core.open && states[i + 1].core.open[t].latestWorking.Some?
    ensures states[i + 1].core.open[t].level
         == CalledFor(states[i + 1].core.open[t], states[0].core.thresholds, inputs[i].now)
  {
    hide CoreOk, TickStep;
    RunLevels(states, inputs, i);
    RunOk(states, inputs, i);
    var core := states[i].core;
    assert Next(states[i], inputs[i], states[i + 1]);
    KeysAgree(core);
    QuietFrame(core, Tick, inputs[i].now, inputs[i].freshId);
    assert core.thresholds.Expected(core.open[t].operation) >= 0;
  }

  /** The same on the table's own fields, and for the default table in minutes. */
  lemma LevelsByOperation(states: seq<System>, inputs: seq<Input>, i: nat, t: TaskId)
    requires Run(states, inputs) && i < |inputs| && inputs[i].command.Tick?
    requires states[0].core.thresholds.NonNegative()
    requires t in states[i + 1].core.open && states[i + 1].core.open[t].latestWorking.Some?
    ensures var table, task := states[0].core.thresholds, states[i + 1].core.open[t];
            var limit := match task.operation
                         case Build => table.build
                         case Test => table.test
                         case Install => table.install
                         case Analyze => table.analyze
                         case Edit => table.edit
                         case Other => table.other;
            var elapsed := inputs[i].now - task.startedAt;
            && task.level == (if elapsed >= 2 * limit then 2 else if elapsed >= limit then 1 else 0)
            && (table == DEFAULT_THRESHOLDS ==>
                  limit == 60_000_000_000 * match task.operation
                                            case Build => 5
                                            case Test => 3
                                            case Install => 10
                                            case Analyze => 2
                                            case Edit => 2
                                            case Other => 5)
  {
    hide Run;
    TickLevelsExact(states, inputs, i, t);
  }

  /** A task is opened by the first event of it that is neither a completion nor an error, at that instant, for
      that agent and operation, and not escalated; nothing else opens a task. */
  lemma TaskOpens(core: Core, input: Input, t: TaskId)
    requires CoreOk(core) && input.freshId !in core.events && t !in core.open
    ensures var core' := Step(core, input.command, input.now, input.freshId).core;
            t in core'.open ==>
              && input.command.AdapterEvent? && !Malformed(input.command.raw)
              && var raw, task := input.command.raw, core'.open[t];
                 && raw.taskId == Some(t) && !IsBlank(t)
                 && task.startedAt == input.now && task.agentId == raw.agentId && task.operation == raw.operation
                 && task.level == 0
                 && input.freshId in core'.events
                 && core'.events[input.freshId].category in {Working, Request}
                 && Listed(task) == [input.freshId]
  {
    hide CoreOk, Step, MakeEvent, Malformed, IsBlank, Displaced, MakeEntry;
    KeysAgree(core);
    if input.command.AdapterEvent? {
      if Malformed(input.command.raw) {
        DroppedFrame(core, input.command.raw, input.now, input.freshId);
      } else {
        EventStepEntries(core, input.command.raw, input.now, input.freshId);
        MadeFields(core, input.command.raw, input.now, input.freshId);
      }
    } else {
      QuietFrame(core, input.command, input.now, input.freshId);
    }
  }

  lemma MadeFields(core: Core, raw: RawEvent, now: Time, id: EventId)
    ensures var e := MakeEvent(core, raw, now, id);
            && e.eventId == id && e.ts == now && e.agentId == raw.agentId && e.operation == raw.operation && e.taskId == raw.taskId
  {
    hide FinalClass;
  }

  /** Each action of a tick raises its own task strictly, to at most the maximum level, and every task
      whose level changes has exactly one action. */
  lemma ActionsRaise(open: OpenTasks, thresholds: ThresholdTable, now: Time, t: TaskId)
    requires t in open
    ensures var task, task' := open[t], TickedTasks(open, thresholds, now)[t];
            var actions := TickActions(open, thresholds, now);
            && task.level <= task'.level
            && (task'.level > task.level <==> exists a :: a in actions && a.taskId == t)
            && (forall a :: a in actions && a.taskId == t ==>
                  a.level == task'.level <= 2 && task.latestWorking == Some(a.eventId))
            && (forall j, k :: 0 <= j < |actions| && 0 <= k < |actions| && actions[j].taskId == actions[k].taskId == t ==> j == k)
  {
    hide StringLe, TickActions, StrictlySorted;
    TickActionsExact(open, thresholds, now);
    var actions := TickActions(open, thresholds, now);
    forall a | a in actions ensures a in ActionSet(open, thresholds, now) {
      assert a in Elements(actions);
    }
    if RaisedLevel(open[t], thresholds, now).Some? {
      assert ActionFor(t, open[t], thresholds, now) in ActionSet(open, thresholds, now);
      assert ActionFor(t, open[t], thresholds, now) in Elements(actions);
    }
  }

  /** While a task stays open, no step lowers its level. */
  lemma LevelsNeverFall(core: Core, input: Input, t: TaskId)
    requires CoreOk(core) && input.freshId !in core.events && t in core.open
    ensures var open' := Step(core, input.command, input.now, input.freshId).core.open;
            t in open' ==> core.open[t].level <= open'[t].level <= 2 && open'[t].startedAt == core.open[t].startedAt
  {
    hide CoreOk, Step, MakeEvent, Malformed, SupersedeAll;
    KeysAgree(core);
    StepOk(core, input);
    LevelsBounded(Step(core, input.command, input.now, input.freshId).core);
    if input.command.AdapterEvent? {
      if Malformed(input.command.raw) {
        DroppedFrame(core, input.command.raw, input.now, input.freshId);
      } else {
        ObservedOpen(core, input.command.raw, input.now, input.freshId);
      }
    } else {
      QuietFrame(core, input.command, input.now, input.freshId);
    }
  }

  lemma LevelsBounded(core: Core)
    requires CoreOk(core)
    ensures forall t :: t in core.open ==> core.open[t].level <= 2
  {
    forall t | t in core.open ensures core.open[t].level <= 2 {
      assert TaskRefsOk(t, core.open[t], core.events);
    }
  }

  lemma ObservedOpen(core: Core, raw: RawEvent, now: Time, id: EventId)
    requires !Malformed(raw)
    ensures Step(core, AdapterEvent(raw), now, id).core.open == Observed(core.open, MakeEvent(core, raw, now, id)).0
  {
    hide Malformed, MakeEvent, MakeLogs, MakeMetrics, SupersedeAll, Observed;
    var event := MakeEvent(core, raw, now, id);
    SupersedeAllMarks(Pipe(Processed(core, raw, now, id).(open := Observed(core.open, event).0), []), Displaced(core, event));
  }

  /** The action of a tick that names a task, if there is one. */
  ghost function ActionOn(core: Core, now: Time, t: TaskId): Option<EscalationAction> {
    var actions := TickActions(core.open, core.thresholds, now);
    if exists a :: a in actions && a.taskId == t then
      var a :| a in actions && a.taskId == t;
      Some(a)
    else None
  }

  /** A step changes the level of a task that stays open exactly when it is a tick with an action for it,
      and then raises it to the level of that action. */
  lemma LevelStep(core: Core, input: Input, t: TaskId)
    requires CoreOk(core) && input.freshId !in core.events && t in core.open
    ensures var open', action := Step(core, input.command, input.now, input.freshId).core.open, ActionOn(core, input.now, t);
            t in open' ==>
              if input.command.Tick? && action.Some? then core.open[t].level < open'[t].level == action.value.level
              else open'[t].level == core.open[t].level
  {
    hide CoreOk, Step, MakeEvent, Malformed, SupersedeAll, TickActions, TickedTasks;
    KeysAgree(core);
    if input.command.AdapterEvent? {
      if Malformed(input.command.raw) {
        DroppedFrame(core, input.command.raw, input.now, input.freshId);
      } else {
        ObservedOpen(core, input.command.raw, input.now, input.freshId);
      }
    } else {
      QuietFrame(core, input.command, input.now, input.freshId);
      ActionsRaise(core.open, core.thresholds, input.now, t);
    }
  }

  /** The levels at which ticks `i` up to `j` escalate a task, in order. */
  ghost function Escalations(states: seq<System>, inputs: seq<Input>, i: nat, j: nat, t: TaskId): seq<nat>
    requires i <= j <= |inputs| <= |states|
    decreases j
  {
    if i == j then []
    else
      var action := ActionOn(states[j - 1].core, inputs[j - 1].now, t);
      Escalations(states, inputs, i, j - 1, t) +
        if inputs[j - 1].command.Tick? && action.Some? then [action.value.level] else []
  }

  /** Strictly rising levels, above `from`, of which the last, if any, is `now`. */
  ghost predicate Rising(taken: seq<nat>, from: nat, now: nat) {
    && (forall a, b :: 0 <= a < b < |taken| ==> taken[a] < taken[b])
    && (forall a :: 0 <= a < |taken| ==> from < taken[a])
    && now == (if taken == [] then from else taken[|taken| - 1])
  }

  lemma RisingMore(taken: seq<nat>, from: nat, now: nat, next: nat)
    requires Rising(taken, from, now) && now < next
    ensures Rising(taken + [next], from, next)
  {
    forall a | 0 <= a < |taken| ensures taken[a] <= now {
      if a < |taken| - 1 {
        assert taken[a] < taken[|taken| - 1];
      }
    }
  }

  lemma {:induction false} RisingBound(taken: seq<nat>, from: nat, now: nat)
    requires Rising(taken, from, now)
    ensures |taken| <= now - from
  {
    if taken != [] {
      var init := taken[..|taken| - 1];
      RisingBound(init, from, if init == [] then from else init[|init| - 1]);
    }
  }

  lemma {:induction false} EscalationsRise(states: seq<System>, inputs: seq<Input>, i: nat, j: nat, t: TaskId)
    requires Run(states, inputs) && i <= j <= |inputs|
    requires forall m :: i <= m <= j ==> t in states[m].core.open
    ensures Rising(Escalations(states, inputs, i, j, t), states[i].core.open[t].level, states[j].core.open[t].level)
    decreases j
  {
    hide CoreOk, Step, ActionOn, Rising;
    if i < j {
      EscalationsRise(states, inputs, i, j - 1, t);
      RunOk(states, inputs, j - 1);
      assert Next(states[j - 1], inputs[j - 1], states[j]);
      LevelStep(states[j - 1].core, inputs[j - 1], t);
      var taken := Escalations(states, inputs, i, j - 1, t);
      var from, now := states[i].core.open[t].level, states[j - 1].core.open[t].level;
      if now < states[j].core.open[t].level {
        RisingMore(taken, from, now, states[j].core.open[t].level);
      } else {
        assert taken + [] == taken;
      }
    } else {
      RisingNot(states[i].core.open[t].level);
    }
  }

  lemma RisingNot(from: nat)
    ensures Rising([], from, from)
  {
  }

  /** While a task stays open it is escalated at strictly rising levels, each above the level it started
      from; its level is that of its last escalation; and so it is escalated at most as often as its level
      has risen, which is at most twice. */
  lemma EscalatedAtMostTwice(states: seq<System>, inputs: seq<Input>, i: nat, j: nat, t: TaskId)
    requires Run(states, inputs) && i <= j <= |inputs|
    requires forall m :: i <= m <= j ==> t in states[m].core.open
    ensures var taken, from, now := Escalations(states, inputs, i, j, t), states[i].core.open[t].level, states[j].core.open[t].level;
            Rising(taken, from, now) && |taken| <= now - from <= 2
  {
    hide CoreOk, Rising, Escalations;
    RunOk(states, inputs, j);
    LevelsBounded(states[j].core);
    EscalationsRise(states, inputs, i, j, t);
    RisingBound(Escalations(states, inputs, i, j, t), states[i].core.open[t].level, states[j].core.open[t].level);
  }

  // ---- scores ---------------------------------------------------------------------------------------

  /** Every live entry's score is its score at `now`. */
  ghost predicate ScoredAt(core: Core, now: Time) {
    forall id :: id in core.entries && id in core.events && core.entries[id].IsLive() ==>
      core.entries[id].score == Score(core.entries[id], core.events[id], now)
  }

  lemma RescoreScores(core: Core, now: Time)
    requires CoreOk(core)
    ensures ScoredAt(core.(entries := RescoredEntries(core.entries, core.events, now)), now)
  {
    hide Score, EntryOk, TrackerOk;
    forall id | id in core.entries && id in core.events
      ensures var e := RescoredEntries(core.entries, core.events, now)[id];
              e.IsLive() ==> e.score == Score(e, core.events[id], now)
    {
      KeyOfEntry(core, id);
      ScoreIgnoresScore(core.entries[id], Score(core.entries[id], core.events[id], now), core.events[id], now);
    }
  }

  lemma EscalateOneScores(p: Pipe, action: EscalationAction, now: Time)
    requires ScoredAt(p.core, now) && CoreOk(p.core)
    ensures ScoredAt(EscalateOne(p, action, now).core, now)
  {
    hide Score, EntryOk, TrackerOk;
    var id := action.eventId;
    if id in p.core.entries && p.core.entries[id].escalationLevel != action.level {
      KeyOfEntry(p.core, id);
      assert id in p.core.events;
      var raised := p.core.entries[id].(escalationLevel := action.level);
      ScoreIgnoresScore(raised, Score(raised, p.core.events[id], now), p.core.events[id], now);
    }
  }

  lemma {:induction false} EscalateAllScores(p: Pipe, w: Watch, actions: seq<EscalationAction>, now: Time)
    requires Good(p, w, None) && ScoredAt(p.core, now) && forall a :: a in actions ==> ActionOk(p.core, a)
    ensures ScoredAt(EscalateAll(p, actions, now).core, now)
  {
    hide EscalateOne, ScoredAt, Good;
    if actions != [] {
      var last := |actions| - 1;
      EscalateAllScores(p, w, actions[..last], now);
      EscalateAllGood(p, w, actions[..last], now);
      Unpack(EscalateAll(p, actions[..last], now), w, None);
      EscalateOneScores(EscalateAll(p, actions[..last], now), actions[last], now);
    }
  }

  /** After a tick, the stored score of every live entry is its score at that instant and lies in
      0..=100, and only Working entries are at a level above zero. */
  lemma TickScoresExact(core: Core, now: Time, newId: EventId, id: EventId)
    requires CoreOk(core) && newId !in core.events && id in core.entries
    ensures var core' := Step(core, Tick, now, newId).core;
            && id in core'.entries && id in core'.events
            && (core'.entries[id].IsLive() ==> core'.entries[id].score == Score(core'.entries[id], core'.events[id], now))
            && core'.entries[id].score <= 100
            && (core'.entries[id].escalationLevel > 0 ==> core'.events[id].category == Working)
  {
    hide TickActions, TickedTasks, RescoredEntries, RescoreUpdates, EscalateAll, EscalateOne, StoreOk, Score, EntryOk, TaskRefsOk,
      Tracks, Complete;
    var p, w := Pipe(core, []), Watch(map[], 0, false, {});
    StartGood(core, w);
    RescoreStepGood(p, w, now);
    RescoreScores(core, now);
    TickActionsOk(core, now);
    TickedTasksOk(core, now);
    var rescored := RescoreStep(p, now);
    var ticked := rescored.(core := rescored.core.(open := TickedTasks(core.open, core.thresholds, now)));
    OpenReplaced(rescored.core, ticked.core);
    var actions := TickActions(core.open, core.thresholds, now);
    assert ScoredAt(ticked.core, now);
    assert Good(ticked, w, None);
    assert forall a :: a in actions ==> ActionOk(ticked.core, a) by {
      assert forall a :: ActionOk(core, a) == ActionOk(ticked.core, a);
    }
    EscalateAllScores(ticked, w, actions, now);
    EscalateAllGood(ticked, w, actions, now);
    TickResolutions(p, now);
    EntryBounds(Step(core, Tick, now, newId).core);
  }

  lemma StartGood(core: Core, w: Watch)
    requires CoreOk(core) && w.start == map[] && !w.full
    ensures Good(Pipe(core, []), w, None)
  {
  }

  lemma EntryBounds(core: Core)
    requires CoreOk(core)
    ensures core.entries.Keys == core.events.Keys
    ensures forall id :: id in core.entries ==> core.entries[id].score <= 100
    ensures forall id :: id in core.entries && core.entries[id].escalationLevel > 0 ==> core.events[id].category == Working
  {
    forall id | id in core.entries
      ensures core.entries[id].score <= 100 && (core.entries[id].escalationLevel > 0 ==> core.events[id].category == Working)
    {
      assert EntryOk(core.entries[id], core.events[id]);
    }
  }
}
