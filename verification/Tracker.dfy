/** Open tasks and the watchdog that escalates the long-running ones. */
module Tracker {
  import opened Types
  import opened Ordering

  datatype ThresholdTable = ThresholdTable(
    build: Time, test: Time, install: Time, analyze: Time, edit: Time, other: Time)
  {
    function Expected(op: Operation): Time {
      match op
      case Build => build
      case Test => test
      case Install => install
      case Analyze => analyze
      case Edit => edit
      case Other => other
    }

    /** Expected durations are durations of something. */
    predicate NonNegative() {
      forall op: Operation :: Expected(op) >= 0
    }
  }

  const DEFAULT_THRESHOLDS: ThresholdTable :=
    ThresholdTable(5 * MINUTE, 3 * MINUTE, 10 * MINUTE, 2 * MINUTE, 2 * MINUTE, 5 * MINUTE)

  datatype OpenTask = OpenTask(
    agentId: AgentId,
    operation: Operation,
    startedAt: Time,
    latestWorking: Option<EventId>,
    working: seq<EventId>,
    requests: seq<EventId>,
    level: nat)

  type OpenTasks = map<TaskId, OpenTask>

  datatype EscalationAction = EscalationAction(taskId: TaskId, eventId: EventId, level: nat)

  /** The task an event is tracked under, if any. */
  function TrackedTask(event: Event): Option<TaskId> {
    if event.taskId.Some? && !IsBlank(event.taskId.value) then event.taskId else None
  }

  function Fresh(event: Event): OpenTask {
    OpenTask(event.agentId, event.operation, event.ts, None, [], [], 0)
  }

  function TaskOrFresh(open: OpenTasks, id: TaskId, event: Event): OpenTask {
    if id in open then open[id] else Fresh(event)
  }

  function Listed(task: OpenTask): seq<EventId> {
    task.working + task.requests
  }

  /** The open tasks after an event, and the events it displaces from the tracker. */
  function Observed(open: OpenTasks, event: Event): (r: (OpenTasks, Option<seq<EventId>>)) {
    match TrackedTask(event)
    case None => (open, None)
    case Some(id) =>
      match event.category
      case Completed => if id in open then (open - {id}, Some(Listed(open[id]))) else (open, None)
      case Error => if id in open then (open - {id}, Some(Listed(open[id]))) else (open, None)
      case Working =>
        var task := TaskOrFresh(open, id, event);
        (open[id := task.(latestWorking := Some(event.eventId), working := task.working + [event.eventId])], None)
      case Request =>
        var task := TaskOrFresh(open, id, event);
        (open[id := task.(requests := [event.eventId])],
         if task.requests != [] then Some(task.requests) else None)
  }

  /** The level a tick raises a task to, if it raises it. */
  function RaisedLevel(task: OpenTask, thresholds: ThresholdTable, now: Time): Option<nat> {
    if task.latestWorking.None? then None
    else
      var elapsed := now - task.startedAt;
      var expected := thresholds.Expected(task.operation);
      if elapsed >= expected * 2 && task.level < 2 then Some(2)
      else if elapsed >= expected && task.level < 1 then Some(1)
      else None
  }

  function Ticked(task: OpenTask, thresholds: ThresholdTable, now: Time): OpenTask {
    match RaisedLevel(task, thresholds, now)
    case None => task
    case Some(level) => task.(level := level)
  }

  function TickedTasks(open: OpenTasks, thresholds: ThresholdTable, now: Time): OpenTasks {
    map id | id in open :: Ticked(open[id], thresholds, now)
  }

  predicate ByTaskId(a: EscalationAction, b: EscalationAction) {
    StringLe(a.taskId, b.taskId)
  }

  function ActionFor(id: TaskId, task: OpenTask, thresholds: ThresholdTable, now: Time): EscalationAction
    requires RaisedLevel(task, thresholds, now).Some?
  {
    EscalationAction(id, task.latestWorking.value, RaisedLevel(task, thresholds, now).value)
  }

  ghost function ActionSet(open: OpenTasks, thresholds: ThresholdTable, now: Time): set<EscalationAction> {
    set id | id in open && RaisedLevel(open[id], thresholds, now).Some? :: ActionFor(id, open[id], thresholds, now)
  }

  ghost function TickActions(open: OpenTasks, thresholds: ThresholdTable, now: Time): seq<EscalationAction> {
    Arrange(ActionSet(open, thresholds, now), ByTaskId)
  }

  lemma TaskIdSeparates(open: OpenTasks, thresholds: ThresholdTable, now: Time)
    ensures TotalPreorder(ByTaskId) && Separates(ActionSet(open, thresholds, now), ByTaskId)
  {
    forall a: EscalationAction, b: EscalationAction
      ensures ByTaskId(a, b) || ByTaskId(b, a)
      ensures ByTaskId(a, b) && ByTaskId(b, a) ==> a.taskId == b.taskId
    {
      StringLeTotal(a.taskId, b.taskId);
    }
    forall a: EscalationAction, b: EscalationAction, c: EscalationAction | ByTaskId(a, b) && ByTaskId(b, c)
      ensures ByTaskId(a, c)
    {
      StringLeTransitive(a.taskId, b.taskId, c.taskId);
    }
  }

  /** A tick reports each raised task exactly once, in task order. */
  lemma TickActionsExact(open: OpenTasks, thresholds: ThresholdTable, now: Time)
    ensures Elements(TickActions(open, thresholds, now)) == ActionSet(open, thresholds, now)
    ensures StrictlySorted(TickActions(open, thresholds, now), ByTaskId)
    ensures NoDuplicates(TickActions(open, thresholds, now))
  {
    TaskIdSeparates(open, thresholds, now);
    ArrangeSorted(ActionSet(open, thresholds, now), ByTaskId);
  }

  /** `actions` lists, once each, the actions of the tasks in `done` that the tick raises. */
  ghost predicate ActionsReported(open: OpenTasks, thresholds: ThresholdTable, now: Time,
                                  done: set<TaskId>, actions: seq<EscalationAction>)
  {
    && (forall i :: 0 <= i < |actions| ==> var id := actions[i].taskId;
          && id in done && id in open && RaisedLevel(open[id], thresholds, now).Some?
          && actions[i] == ActionFor(id, open[id], thresholds, now))
    && (forall id :: id in done && id in open && RaisedLevel(open[id], thresholds, now).Some?
          ==> ActionFor(id, open[id], thresholds, now) in actions)
    && NoDuplicates(actions)
  }

  lemma NothingReported(open: OpenTasks, thresholds: ThresholdTable, now: Time)
    ensures ActionsReported(open, thresholds, now, open.Keys - open.Keys, [])
  {
  }

  lemma ReportOne(open: OpenTasks, thresholds: ThresholdTable, now: Time, done: set<TaskId>, id: TaskId,
                  reported: seq<EscalationAction>, actions: seq<EscalationAction>)
    requires id in open && id !in done && ActionsReported(open, thresholds, now, done, reported)
    requires actions == if RaisedLevel(open[id], thresholds, now).Some?
                        then reported + [ActionFor(id, open[id], thresholds, now)] else reported
    ensures ActionsReported(open, thresholds, now, done + {id}, actions)
  {
  }

  lemma ReportedInOrder(open: OpenTasks, thresholds: ThresholdTable, now: Time, actions: seq<EscalationAction>)
    requires ActionsReported(open, thresholds, now, open.Keys, actions)
    ensures Sort(actions, ByTaskId) == TickActions(open, thresholds, now)
  {
    assert Elements(actions) == ActionSet(open, thresholds, now);
    TaskIdSeparates(open, thresholds, now);
    ArrangeIsSort(ActionSet(open, thresholds, now), actions, ByTaskId);
  }

  class TaskTracker {
    const thresholds: ThresholdTable
    var openTasks: OpenTasks

    constructor (thresholds: ThresholdTable)
      ensures this.thresholds == thresholds && openTasks == map[]
    {
      this.thresholds := thresholds;
      openTasks := map[];
    }

    method ObserveEvent(event: Event) returns (displaced: Option<seq<EventId>>)
      modifies this
      ensures (openTasks, displaced) == Observed(old(openTasks), event)
    {
      displaced := None;
      if event.taskId.None? || IsBlank(event.taskId.value) {
        return;
      }
      var id := event.taskId.value;
      match event.category
      case Completed | Error =>
        if id in openTasks {
          var task := openTasks[id];
          openTasks := openTasks - {id};
          displaced := Some(task.working + task.requests);
        }
      case Working =>
        if id !in openTasks {
          openTasks := openTasks[id := Fresh(event)];
        }
        var task := openTasks[id];
        openTasks := openTasks[id := task.(latestWorking := Some(event.eventId),
                                           working := task.working + [event.eventId])];
        assert openTasks == Observed(old(openTasks), event).0;
      case Request =>
        if id !in openTasks {
          openTasks := openTasks[id := Fresh(event)];
        }
        var task := openTasks[id];
        var stale := task.requests;
        openTasks := openTasks[id := task.(requests := [event.eventId])];
        assert openTasks == Observed(old(openTasks), event).0;
        if stale != [] {
          displaced := Some(stale);
        }
    }

    method Tick(now: Time) returns (actions: seq<EscalationAction>)
      modifies this
      ensures openTasks == TickedTasks(old(openTasks), thresholds, now)
      ensures actions == TickActions(old(openTasks), thresholds, now)
    {
      hide StringLe, Sort, TickActions, ActionsReported;
      actions := [];
      ghost var before := openTasks;
      NothingReported(before, thresholds, now);
      var todo := openTasks.Keys;
      while todo != {}
        invariant todo <= before.Keys == openTasks.Keys
        invariant forall id :: id in todo ==> openTasks[id] == before[id]
        invariant forall id :: id in before && id !in todo ==> openTasks[id] == Ticked(before[id], thresholds, now)
        invariant ActionsReported(before, thresholds, now, before.Keys - todo, actions)
        decreases todo
      {
        var id :| id in todo;
        ghost var done, reported := before.Keys - todo, actions;
        todo := todo - {id};
        assert before.Keys - todo == done + {id};
        var task := openTasks[id];
        if task.latestWorking.Some? {
          var elapsed := now - task.startedAt;
          var expected := thresholds.Expected(task.operation);
          if elapsed >= expected * 2 && task.level < 2 {
            openTasks := openTasks[id := task.(level := 2)];
            actions := actions + [EscalationAction(id, task.latestWorking.value, 2)];
          } else if elapsed >= expected && task.level < 1 {
            openTasks := openTasks[id := task.(level := 1)];
            actions := actions + [EscalationAction(id, task.latestWorking.value, 1)];
          }
        }
        ReportOne(before, thresholds, now, done, id, reported, actions);
      }
      assert before.Keys - todo == before.Keys;
      ReportedInOrder(before, thresholds, now, actions);
      actions := Sort(actions, ByTaskId);
    }
  }
}
