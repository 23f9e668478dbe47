/** Validation of scenario files. */
module Scenarios {
  import opened Types
  import opened Classifier
  import opened Simulators
  import opened Scripts

  datatype Scenario = Scenario(agents: seq<AgentId>, tasks: seq<TaskSpec>)

  datatype ScenarioError =
    | DuplicateAgent(agent: AgentId)
    | DuplicateTask(task: TaskId)
    | UnknownAgent(task: TaskId, agent: AgentId)
    | EmptyTask(task: TaskId)
    | ZeroCount(task: TaskId, step: nat)
    | EmptyOptions(task: TaskId, step: nat)
    | StepAfterTerminal(task: TaskId, step: nat)
    | RequestKindNotRequest(task: TaskId, step: nat, kind: string)
    | OnDenyKindNotTerminal(task: TaskId, step: nat, kind: string)

  predicate StepFine(step: ScriptStep) {
    && (step.Progress? ==> step.count > 0)
    && (step.Ask? ==> Classify(step.kind).category == Request && step.options != [] && IsTerminalKind(step.onDenyKind))
  }

  predicate Terminal(step: ScriptStep) {
    step.Emit? && IsTerminalKind(step.eventKind)
  }

  ghost predicate StepsFine(steps: seq<ScriptStep>) {
    && (forall k :: 0 <= k < |steps| ==> StepFine(steps[k]))
    && (forall k :: 0 <= k < |steps| - 1 ==> !Terminal(steps[k]))
  }

  ghost predicate TaskFine(t: TaskSpec, agents: seq<AgentId>) {
    t.agentId in agents && t.steps != [] && StepsFine(t.steps)
  }

  ghost predicate ValidScenario(sc: Scenario) {
    && (forall i, j :: 0 <= i < j < |sc.agents| ==> sc.agents[i] != sc.agents[j])
    && (forall i, j :: 0 <= i < j < |sc.tasks| ==> sc.tasks[i].taskId != sc.tasks[j].taskId)
    && (forall i :: 0 <= i < |sc.tasks| ==> TaskFine(sc.tasks[i], sc.agents))
  }

  // ---- every fault, in the order of the file ---------------------------------------------------------

  function When(fault: bool, error: ScenarioError): seq<ScenarioError> {
    if fault then [error] else []
  }

  function StepFaults(task: TaskId, steps: seq<ScriptStep>, i: nat): seq<ScenarioError>
    requires i < |steps|
  {
    When(i > 0 && Terminal(steps[i - 1]), StepAfterTerminal(task, i)) +
    match steps[i]
    case Progress(count, _, _, _) => When(count == 0, ZeroCount(task, i))
    case Ask(kind, _, options, _, onDenyKind) =>
      When(Classify(kind).category != Request, RequestKindNotRequest(task, i, kind))
      + When(options == [], EmptyOptions(task, i))
      + When(!IsTerminalKind(onDenyKind), OnDenyKindNotTerminal(task, i, onDenyKind))
    case _ => []
  }

  function StepsFaults(task: TaskId, steps: seq<ScriptStep>, n: nat): seq<ScenarioError>
    requires n <= |steps|
  {
    if n == 0 then [] else StepsFaults(task, steps, n - 1) + StepFaults(task, steps, n - 1)
  }

  ghost function TaskFaults(sc: Scenario, i: nat): seq<ScenarioError>
    requires i < |sc.tasks|
  {
    var t := sc.tasks[i];
    When(exists j :: 0 <= j < i && sc.tasks[j].taskId == t.taskId, DuplicateTask(t.taskId))
    + When(t.agentId !in sc.agents, UnknownAgent(t.taskId, t.agentId))
    + When(t.steps == [], EmptyTask(t.taskId))
    + StepsFaults(t.taskId, t.steps, |t.steps|)
  }

  ghost function TasksFaults(sc: Scenario, n: nat): seq<ScenarioError>
    requires n <= |sc.tasks|
  {
    if n == 0 then [] else TasksFaults(sc, n - 1) + TaskFaults(sc, n - 1)
  }

  function AgentFaults(agents: seq<AgentId>, n: nat): seq<ScenarioError>
    requires n <= |agents|
  {
    if n == 0 then []
    else AgentFaults(agents, n - 1) + When(agents[n - 1] in agents[..n - 1], DuplicateAgent(agents[n - 1]))
  }

  ghost function Faults(sc: Scenario): seq<ScenarioError> {
    AgentFaults(sc.agents, |sc.agents|) + TasksFaults(sc, |sc.tasks|)
  }

  lemma {:induction false} StepsFaultsGrow(task: TaskId, steps: seq<ScriptStep>, n: nat, m: nat)
    requires n <= m <= |steps|
    ensures StepsFaults(task, steps, n) <= StepsFaults(task, steps, m)
  {
    hide StepFaults;
    if n < m {
      StepsFaultsGrow(task, steps, n, m - 1);
    }
  }

  lemma {:induction false} TasksFaultsGrow(sc: Scenario, n: nat, m: nat)
    requires n <= m <= |sc.tasks|
    ensures TasksFaults(sc, n) <= TasksFaults(sc, m)
  {
    hide TaskFaults;
    if n < m {
      TasksFaultsGrow(sc, n, m - 1);
    }
  }

  lemma {:induction false} AgentFaultsGrow(agents: seq<AgentId>, n: nat, m: nat)
    requires n <= m <= |agents|
    ensures AgentFaults(agents, n) <= AgentFaults(agents, m)
  {
    if n < m {
      AgentFaultsGrow(agents, n, m - 1);
    }
  }

  /** The first error of a list, if there is one. */
  function First(errors: seq<ScenarioError>): Option<ScenarioError> {
    if errors == [] then None else Some(errors[0])
  }

  lemma FirstOfMore(some: seq<ScenarioError>, all: seq<ScenarioError>)
    requires some != [] && some <= all
    ensures First(all) == First(some)
  {
  }

  /** No fault in the steps is what makes them fine. */
  lemma {:induction false} NoStepFaults(task: TaskId, steps: seq<ScriptStep>, n: nat)
    requires n <= |steps|
    ensures StepsFaults(task, steps, n) == [] <==>
              (forall k :: 0 <= k < n ==> StepFine(steps[k])) && (forall k :: 0 <= k < n - 1 ==> !Terminal(steps[k]))
  {
    hide StepFaults, StepFine, Terminal;
    if n > 0 {
      NoStepFaults(task, steps, n - 1);
      NoFaultInStep(task, steps, n - 1);
    }
  }

  lemma NoFaultInStep(task: TaskId, steps: seq<ScriptStep>, i: nat)
    requires i < |steps|
    ensures StepFaults(task, steps, i) == [] <==> StepFine(steps[i]) && !(i > 0 && Terminal(steps[i - 1]))
  {
    hide IsTerminalKind, Classify;
  }

  method ValidateStep(task: TaskId, steps: seq<ScriptStep>, i: nat, terminated: bool) returns (error: Option<ScenarioError>)
    requires i < |steps| && (terminated <==> i > 0 && Terminal(steps[i - 1]))
    ensures error == First(StepFaults(task, steps, i))
  {
    hide IsTerminalKind;
    if terminated {
      return Some(StepAfterTerminal(task, i));
    }
    error := None;
    match steps[i]
    case Progress(count, _, _, _) =>
      if count == 0 {
        error := Some(ZeroCount(task, i));
      }
    case Ask(kind, _, options, _, onDenyKind) =>
      if Classify(kind).category != Request {
        error := Some(RequestKindNotRequest(task, i, kind));
      } else if options == [] {
        error := Some(EmptyOptions(task, i));
      } else if !IsTerminalKind(onDenyKind) {
        error := Some(OnDenyKindNotTerminal(task, i, onDenyKind));
      }
    case _ =>
  }

  method ValidateSteps(task: TaskId, steps: seq<ScriptStep>) returns (error: Option<ScenarioError>)
    ensures error == First(StepsFaults(task, steps, |steps|))
  {
    hide StepFaults;
    var terminated := false;
    for i := 0 to |steps|
      invariant StepsFaults(task, steps, i) == []
      invariant terminated <==> i > 0 && Terminal(steps[i - 1])
    {
      error := ValidateStep(task, steps, i, terminated);
      if error.Some? {
        StepsFaultsGrow(task, steps, i + 1, |steps|);
        FirstOfMore(StepsFaults(task, steps, i + 1), StepsFaults(task, steps, |steps|));
        return;
      }
      terminated := Terminal(steps[i]);
    }
    error := None;
  }

  method ValidateTask(sc: Scenario, i: nat, agents: set<AgentId>, tasks: set<TaskId>) returns (error: Option<ScenarioError>)
    requires i < |sc.tasks|
    requires forall a :: a in agents <==> a in sc.agents
    requires forall id :: id in tasks <==> exists j :: 0 <= j < i && sc.tasks[j].taskId == id
    ensures error == First(TaskFaults(sc, i))
  {
    hide StepsFaults;
    var t := sc.tasks[i];
    if t.taskId in tasks {
      return Some(DuplicateTask(t.taskId));
    }
    if t.agentId !in agents {
      return Some(UnknownAgent(t.taskId, t.agentId));
    }
    if t.steps == [] {
      return Some(EmptyTask(t.taskId));
    }
    error := ValidateSteps(t.taskId, t.steps);
  }

  lemma AgentFaultsNext(agents: seq<AgentId>, n: nat)
    requires n < |agents|
    ensures AgentFaults(agents, 0) == []
    ensures AgentFaults(agents, n + 1) == AgentFaults(agents, n) + When(agents[n] in agents[..n], DuplicateAgent(agents[n]))
  {
  }

  lemma DuplicateFound(sc: Scenario, i: nat)
    requires i < |sc.agents| && sc.agents[i] in sc.agents[..i] && AgentFaults(sc.agents, i) == []
    ensures First(Faults(sc)) == Some(DuplicateAgent(sc.agents[i]))
  {
    hide TasksFaults;
    AgentFaultsNext(sc.agents, i);
    AgentFaultsGrow(sc.agents, i + 1, |sc.agents|);
  }

  lemma FaultsInOrder(sc: Scenario)
    ensures AgentFaults(sc.agents, 0) == []
    ensures AgentFaults(sc.agents, |sc.agents|) == [] ==> Faults(sc) == TasksFaults(sc, |sc.tasks|)
  {
  }

  /** Accepts exactly the valid scenarios; of any other, it reports the first fault in the order of the
      file. */
  method Validate(sc: Scenario) returns (error: Option<ScenarioError>)
    ensures error == First(Faults(sc))
    ensures error.None? <==> ValidScenario(sc)
  {
    hide TaskFaults, ValidScenario, Faults, AgentFaults;
    NoFaults(sc);
    FaultsInOrder(sc);
    var agents: set<AgentId> := {};
    for i := 0 to |sc.agents|
      invariant forall a :: a in agents <==> a in sc.agents[..i]
      invariant AgentFaults(sc.agents, i) == []
    {
      if sc.agents[i] in agents {
        assert sc.agents[i] in sc.agents[..i];
        DuplicateFound(sc, i);
        return Some(DuplicateAgent(sc.agents[i]));
      }
      AgentFaultsNext(sc.agents, i);
      agents := agents + {sc.agents[i]};
      assert sc.agents[..i + 1] == sc.agents[..i] + [sc.agents[i]];
    }
    assert sc.agents[..|sc.agents|] == sc.agents;
    var tasks: set<TaskId> := {};
    for i := 0 to |sc.tasks|
      invariant forall id :: id in tasks <==> exists j :: 0 <= j < i && sc.tasks[j].taskId == id
      invariant TasksFaults(sc, i) == []
    {
      error := ValidateTask(sc, i, agents, tasks);
      if error.Some? {
        TasksFaultsGrow(sc, i + 1, |sc.tasks|);
        FirstOfMore(TasksFaults(sc, i + 1), TasksFaults(sc, |sc.tasks|));
        return;
      }
      tasks := tasks + {sc.tasks[i].taskId};
    }
    error := None;
  }

  lemma {:induction false} NoAgentFaults(agents: seq<AgentId>, n: nat)
    requires n <= |agents|
    ensures AgentFaults(agents, n) == [] <==> forall i, j :: 0 <= i < j < n ==> agents[i] != agents[j]
  {
    if n > 0 {
      NoAgentFaults(agents, n - 1);
      assert agents[n - 1] in agents[..n - 1] <==> exists i :: 0 <= i < n - 1 && agents[i] == agents[n - 1];
    }
  }

  lemma {:induction false} NoTasksFaults(sc: Scenario, n: nat)
    requires n <= |sc.tasks|
    ensures TasksFaults(sc, n) == [] <==>
              && (forall i, j :: 0 <= i < j < n ==> sc.tasks[i].taskId != sc.tasks[j].taskId)
              && (forall i :: 0 <= i < n ==> TaskFine(sc.tasks[i], sc.agents))
  {
    hide TaskFaults, TaskFine;
    if n > 0 {
      NoTasksFaults(sc, n - 1);
      NoTaskFault(sc, n - 1);
    }
  }

  lemma NoTaskFault(sc: Scenario, i: nat)
    requires i < |sc.tasks|
    ensures TaskFaults(sc, i) == [] <==>
              (forall j :: 0 <= j < i ==> sc.tasks[j].taskId != sc.tasks[i].taskId) && TaskFine(sc.tasks[i], sc.agents)
  {
    hide StepsFaults, StepsFine;
    StepsFineExactly(sc.tasks[i].taskId, sc.tasks[i].steps);
  }

  lemma StepsFineExactly(task: TaskId, steps: seq<ScriptStep>)
    ensures StepsFaults(task, steps, |steps|) == [] <==> StepsFine(steps)
  {
    NoStepFaults(task, steps, |steps|);
  }

  lemma NoFaults(sc: Scenario)
    ensures Faults(sc) == [] <==> ValidScenario(sc)
  {
    hide TaskFine;
    NoAgentFaults(sc.agents, |sc.agents|);
    NoTasksFaults(sc, |sc.tasks|);
  }

  /** A valid scenario's tasks say nothing after their end. */
  lemma ValidEndsAtTerminal(sc: Scenario, i: nat)
    requires ValidScenario(sc) && i < |sc.tasks|
    ensures NothingAfterTerminal(sc.tasks[i])
  {
    hide IsTerminalKind;
    var steps := sc.tasks[i].steps;
    forall k | 0 <= k < |steps| && steps[k].Emit? && IsTerminalKind(steps[k].eventKind) ensures k == |steps| - 1 {
      assert Terminal(steps[k]);
      assert TaskFine(sc.tasks[i], sc.agents);
    }
  }

  /** Validation does not look at log lines: a scenario with an empty log step is accepted, and the
      simulator would index past its lines at the very first poll. */
  lemma EmptyLogAccepted()
    ensures var spec := TaskSpec("task", "agent", "title", Other, 0, [Log([], 0)]);
            ValidScenario(Scenario(["agent"], [spec])) &&
            !Emittable(TaskState(spec, 0, 0, Some(0), None, None, false))
  {
    var spec := TaskSpec("task", "agent", "title", Other, 0, [Log([], 0)]);
    assert TaskFine(spec, ["agent"]) by {
      assert spec.agentId == ["agent"][0];
    }
  }
}
