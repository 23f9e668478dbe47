/** The simulator as the object that tests and benches drive, and the driver that runs it to the end
    on a virtual clock. */
module Drivers {
  import opened Types
  import opened Simulators
  import opened Scripts
  import opened Scenarios

  datatype RespondFailure = NoSuchTask | NotBlocked

  function Outputs(emissions: seq<Emission>): seq<AdapterOutput> {
    seq(|emissions|, i requires 0 <= i < |emissions| => emissions[i].output)
  }

  /** One of the first `n` tasks has this id and waits for a decision. */
  ghost predicate WaitsAmong(tasks: seq<TaskState>, n: nat, id: TaskId)
    requires n <= |tasks|
  {
    exists i :: 0 <= i < n && tasks[i].blocked.Some? && tasks[i].spec.taskId == id
  }

  lemma NothingOut()
    ensures Outputs([]) == []
  {
  }

  lemma JoinLog(before: seq<Emission>, logged: seq<Emission>, log: seq<Emission>, rest: seq<Emission>)
    requires before <= logged <= log
    ensures logged[|before|..] + (log[|logged|..] + rest) == log[|before|..] + rest
  {
  }

  lemma OutputsMore(before: seq<Emission>, logged: seq<Emission>, log: seq<Emission>)
    requires before <= logged <= log
    ensures Outputs(log[|before|..]) == Outputs(logged[|before|..]) + Outputs(log[|logged|..])
  {
  }

  /** The first emission of a poll, and the rest of it. */
  lemma PolledMore(draws: Draws, s: Sim, now: Time)
    requires SimOk(s)
    ensures match NextDueTask(s.tasks, now)
            case None => Polled(draws, s, now) == (s, [])
            case Some(ti) =>
              && ti < |s.tasks| && s.tasks[ti].nextDue.Some? && Emittable(s.tasks[ti])
              && var (s', first) := Emitted(draws, s, ti);
                 SimOk(s') && Polled(draws, s, now) == (Polled(draws, s', now).0, first + Polled(draws, s', now).1)
  {
    hide SimOk, Emitted, TotalWork, NextDueTask;
    if NextDueTask(s.tasks, now).Some? {
      NextEmittable(s, now);
      EmittedOk(draws, s, NextDueTask(s.tasks, now).value);
    }
  }

  /** The ids of the tasks that wait for a decision, in order. */
  function BlockedAmong(tasks: seq<TaskState>): seq<TaskId> {
    if tasks == [] then []
    else
      var last := tasks[|tasks| - 1];
      BlockedAmong(tasks[..|tasks| - 1]) + if last.blocked.Some? then [last.spec.taskId] else []
  }

  ghost predicate DistinctIds(tasks: seq<TaskState>) {
    forall i, j :: 0 <= i < |tasks| && 0 <= j < |tasks| && tasks[i].spec.taskId == tasks[j].spec.taskId ==> i == j
  }

  /** Exactly the waiting tasks are listed, and none twice. */
  lemma {:induction false} BlockedAmongExactly(tasks: seq<TaskState>)
    requires DistinctIds(tasks)
    ensures forall id :: id in BlockedAmong(tasks) <==> WaitsAmong(tasks, |tasks|, id)
    ensures forall j, k :: 0 <= j < k < |BlockedAmong(tasks)| ==> BlockedAmong(tasks)[j] != BlockedAmong(tasks)[k]
  {
    if tasks != [] {
      var n, init, last := |tasks| - 1, tasks[..|tasks| - 1], tasks[|tasks| - 1];
      forall i | 0 <= i < n ensures init[i].spec.taskId != last.spec.taskId {
        assert init[i] == tasks[i] && last == tasks[n];
      }
      assert DistinctIds(init) by {
        assert forall i :: 0 <= i < n ==> init[i] == tasks[i];
      }
      BlockedAmongExactly(init);
      forall id ensures id in BlockedAmong(tasks) <==> WaitsAmong(tasks, |tasks|, id) {
        WaitsOneMore(tasks, id);
        assert id in BlockedAmong(init) <==> WaitsAmong(init, |init|, id);
        assert id in BlockedAmong(tasks) <==> id in BlockedAmong(init) || (last.blocked.Some? && id == last.spec.taskId);
      }
      var ids, before := BlockedAmong(tasks), BlockedAmong(init);
      forall j, k | 0 <= j < k < |ids| ensures ids[j] != ids[k] {
        assert ids[j] == before[j] && before[j] in before;
        assert WaitsAmong(init, |init|, before[j]);
        assert k == |before| ==> ids[k] == last.spec.taskId;
      }
    }
  }

  lemma WaitsOneMore(tasks: seq<TaskState>, id: TaskId)
    requires tasks != []
    ensures var n, last := |tasks| - 1, tasks[|tasks| - 1];
            WaitsAmong(tasks, |tasks|, id) <==>
              WaitsAmong(tasks[..n], n, id) || (last.blocked.Some? && id == last.spec.taskId)
  {
    var n, init := |tasks| - 1, tasks[..|tasks| - 1];
    if WaitsAmong(init, n, id) {
      var i :| 0 <= i < n && init[i].blocked.Some? && init[i].spec.taskId == id;
      assert tasks[i] == init[i];
    }
    if WaitsAmong(tasks, |tasks|, id) {
      var i :| 0 <= i < |tasks| && tasks[i].blocked.Some? && tasks[i].spec.taskId == id;
      if i < n {
        assert init[i] == tasks[i];
      }
    }
  }

  class Simulator {
    const draws: Draws
    var tasks: seq<TaskState>
    var agentSeq: map<AgentId, nat>
    var rngPos: nat

    /** Everything emitted since the start. */
    ghost var log: seq<Emission>

    /** Every decision delivered since the start. */
    ghost var answers: seq<Answer>

    ghost function State(): Sim
      reads this
    {
      Sim(tasks, agentSeq, rngPos)
    }

    /** Each task is exactly one of finished, due and blocked, and has said exactly its script so far. */
    ghost predicate Valid()
      reads this
    {
      SimOk(State()) && LogOk(State(), log, answers)
    }

    constructor (scenario: Scenario, draws: Draws, start: Time)
      requires ValidScenario(scenario)
      requires forall i :: 0 <= i < |scenario.tasks| ==> LogsNonEmpty(scenario.tasks[i])
      ensures Valid() && log == [] && answers == [] && this.draws == draws
      ensures agentSeq == map[] && rngPos == 0 && |tasks| == |scenario.tasks|
      ensures forall i :: 0 <= i < |tasks| ==>
                var spec := scenario.tasks[i];
                tasks[i] == TaskState(spec, 0, 0, Some(start + 1_000_000 * spec.startOffsetMs), None, None, false)
    {
      this.draws := draws;
      tasks := seq(|scenario.tasks|, i requires 0 <= i < |scenario.tasks| =>
        TaskState(scenario.tasks[i], 0, 0, Some(start + scenario.tasks[i].startOffsetMs * MILLISECOND), None, None, false));
      agentSeq, rngPos, log, answers := map[], 0, [], [];
      new;
      forall i | 0 <= i < |tasks| ensures TaskOk(tasks[i]) && SaidOk(tasks[i], [], []) && NothingAfterTerminal(tasks[i].spec) {
        FirstState(scenario, i, tasks[i]);
      }
    }

    lemma FirstState(scenario: Scenario, i: nat, t: TaskState)
      requires ValidScenario(scenario) && i < |scenario.tasks| && LogsNonEmpty(scenario.tasks[i])
      requires t == TaskState(scenario.tasks[i], 0, 0, t.nextDue, None, None, false) && t.nextDue.Some?
      ensures TaskOk(t) && SaidOk(t, [], []) && NothingAfterTerminal(t.spec)
    {
      ValidEndsAtTerminal(scenario, i);
      assert TaskFine(scenario.tasks[i], scenario.agents);
    }

    method NextAgentSeq(agent: AgentId) returns (n: nat)
      modifies this`agentSeq
      ensures n == SeqOf(old(agentSeq), agent) + 1 && agentSeq == old(agentSeq)[agent := n]
    {
      n := (if agent in agentSeq then agentSeq[agent] else 0) + 1;
      agentSeq := agentSeq[agent := n];
    }

    method Jitter(bound: nat) returns (ms: nat)
      modifies this`rngPos
      ensures ms == if bound == 0 then 0 else draws(old(rngPos), bound)
      ensures rngPos == if bound == 0 then old(rngPos) else old(rngPos) + 1
    {
      if bound == 0 {
        return 0;
      }
      ms := draws(rngPos, bound);
      rngPos := rngPos + 1;
    }

    method Finish(ti: nat)
      requires ti < |tasks|
      modifies this`tasks
      ensures tasks == old(tasks)[ti := Finished(old(tasks)[ti])]
    {
      tasks := tasks[ti := tasks[ti].(finished := true, nextDue := None, blocked := None)];
    }

    method AdvanceStep(ti: nat)
      requires ti < |tasks|
      modifies this`tasks
      ensures tasks == old(tasks)[ti := Advanced(old(tasks)[ti])]
    {
      tasks := tasks[ti := tasks[ti].(step := tasks[ti].step + 1, piece := 0)];
      if tasks[ti].step >= |tasks[ti].spec.steps| && tasks[ti].blocked.None? {
        Finish(ti);
      }
    }

    /** Moves the task past its due piece. */
    method Schedule(ti: nat) returns (ghost jitter: nat)
      requires ti < |tasks| && tasks[ti].nextDue.Some?
      modifies this`tasks, this`rngPos
      ensures jitter == if JitterBound(old(tasks)[ti]) == 0 then 0 else draws(old(rngPos), JitterBound(old(tasks)[ti]))
      ensures tasks == old(tasks)[ti := AfterPiece(old(tasks)[ti], jitter)]
      ensures rngPos == if JitterBound(old(tasks)[ti]) == 0 then old(rngPos) else old(rngPos) + 1
    {
      hide IsTerminalKind;
      jitter := 0;
      var t := tasks[ti];
      var due := t.nextDue.value;
      if t.pendingDeny.Some? {
        tasks := tasks[ti := t.(pendingDeny := None)];
        Finish(ti);
      } else if t.step >= |t.spec.steps| {
        Finish(ti);
      } else {
        match t.spec.steps[t.step]
        case Started(_) => AdvanceStep(ti);
        case Progress(count, interval, bound, _) =>
          var ms := Jitter(bound);
          jitter := ms;
          tasks := tasks[ti := t.(nextDue := Some(due + (interval + ms) * MILLISECOND), piece := t.piece + 1)];
          if t.piece + 1 >= count {
            AdvanceStep(ti);
          }
        case Log(lines, interval) =>
          tasks := tasks[ti := t.(nextDue := Some(due + interval * MILLISECOND), piece := t.piece + 1)];
          if t.piece + 1 >= |lines| {
            AdvanceStep(ti);
          }
        case Wait(ms) =>
          tasks := tasks[ti := t.(nextDue := Some(due + ms * MILLISECOND))];
          AdvanceStep(ti);
        case Ask(_, prompt, _, _, onDenyKind) =>
          tasks := tasks[ti := t.(blocked := Some(Blocked(prompt, onDenyKind)), nextDue := None)];
          AdvanceStep(ti);
        case Emit(kind, _, _, delay) =>
          if IsTerminalKind(kind) {
            Finish(ti);
          } else {
            tasks := tasks[ti := t.(nextDue := Some(due + delay * MILLISECOND))];
            AdvanceStep(ti);
          }
      }
    }

    /** Emits the piece that is due for a task and schedules the next one. */
    method EmitPiece(ti: nat) returns (out: seq<AdapterOutput>)
      requires Valid() && ti < |tasks| && tasks[ti].nextDue.Some? && Emittable(tasks[ti])
      modifies this
      ensures Valid() && answers == old(answers)
      ensures old(log) <= log && (State(), log[|old(log)|..]) == Emitted(draws, old(State()), ti)
      ensures out == Outputs(log[|old(log)|..])
    {
      hide SimOk, LogOk, DueItem, AfterPiece, JitterBound;
      ghost var start := State();
      var t := tasks[ti];
      out := [];
      var item := DueItem(t);
      if item.Some? {
        match item.value
        case EventItem(kind, message, logLines, request) =>
          var n := NextAgentSeq(t.spec.agentId);
          out := [OutEvent(RawEvent(t.spec.agentId, n, Some(t.spec.taskId), kind, t.spec.operation, message, logLines, request))];
        case LineItem(text) => out := [OutLine(t.spec.agentId, text)];
      }
      ghost var jitter := Schedule(ti);
      ghost var emitted := Emitted(draws, start, ti).1;
      EmittedOk(draws, start, ti);
      EmittedLogged(draws, start, ti, log, answers);
      log := log + emitted;
      assert log[|old(log)|..] == emitted;
    }

    method Poll(now: Time) returns (out: seq<AdapterOutput>)
      requires Valid()
      modifies this
      ensures Valid() && answers == old(answers)
      ensures old(log) <= log && (State(), log[|old(log)|..]) == Polled(draws, old(State()), now)
      ensures out == Outputs(log[|old(log)|..])
    {
      hide SimOk, LogOk, Emitted, Polled, TotalWork, NextDueTask, Outputs;
      ghost var start, before := State(), log;
      out := [];
      var next := NextDueTask(tasks, now);
      NothingOut();
      assert log[|before|..] == [];
      assert [] + Polled(draws, start, now).1 == Polled(draws, start, now).1;
      while next.Some?
        invariant Valid() && next == NextDueTask(tasks, now) && before <= log && answers == old(answers)
        invariant out == Outputs(log[|before|..])
        invariant Polled(draws, start, now)
               == (Polled(draws, State(), now).0, log[|before|..] + Polled(draws, State(), now).1)
        decreases TotalWork(tasks)
      {
        NextEmittable(State(), now);
        EmittedOk(draws, State(), next.value);
        PolledMore(draws, State(), now);
        ghost var logged := log;
        var some := EmitPiece(next.value);
        JoinLog(before, logged, log, Polled(draws, State(), now).1);
        OutputsMore(before, logged, log);
        out := out + some;
        next := NextDueTask(tasks, now);
      }
      PolledMore(draws, State(), now);
      assert log[|before|..] + [] == log[|before|..];
    }

    method NextDue() returns (due: Option<Time>)
      ensures due.None? <==> forall i :: 0 <= i < |tasks| ==> tasks[i].nextDue.None?
      ensures due.Some? ==> NoneDueBefore(tasks, due.value) && exists i :: 0 <= i < |tasks| && tasks[i].nextDue == due
    {
      due := None;
      for i := 0 to |tasks|
        invariant due.None? <==> forall j :: 0 <= j < i ==> tasks[j].nextDue.None?
        invariant due.Some? ==> (forall j :: 0 <= j < i && tasks[j].nextDue.Some? ==> due.value <= tasks[j].nextDue.value)
        invariant due.Some? ==> exists j :: 0 <= j < i && tasks[j].nextDue == due
      {
        var d := tasks[i].nextDue;
        if d.Some? && (due.None? || d.value < due.value) {
          due := d;
        }
      }
    }

    /** The tasks waiting for a decision, in order. */
    method BlockedTasks() returns (ids: seq<TaskId>)
      requires Valid()
      ensures ids == BlockedAmong(tasks)
    {
      hide SimOk, LogOk;
      ids := [];
      for i := 0 to |tasks|
        invariant ids == BlockedAmong(tasks[..i])
      {
        assert tasks[..i + 1][..i] == tasks[..i];
        if tasks[i].blocked.Some? {
          ids := ids + [tasks[i].spec.taskId];
        }
      }
      assert tasks[..|tasks|] == tasks;
    }

    /** Delivers a decision to a blocked task. */
    method Respond(id: TaskId, decision: Decision, now: Time) returns (r: Result<(), RespondFailure>)
      requires Valid()
      modifies this`tasks, this`answers
      ensures Valid() && |tasks| == |old(tasks)|
      ensures answers == if r.Ok? then old(answers) + [Answer(id, decision)] else old(answers)
      ensures r == Err(NoSuchTask) <==> forall i :: 0 <= i < |old(tasks)| ==> old(tasks)[i].spec.taskId != id
      ensures r.Err? ==> tasks == old(tasks)
      ensures r.Ok? <==> WaitsAmong(old(tasks), |old(tasks)|, id)
      ensures r.Ok? ==> forall i :: 0 <= i < |tasks| ==>
                tasks[i] == if old(tasks)[i].spec.taskId == id then Answered(old(tasks)[i], decision, now) else old(tasks)[i]
      ensures r.Ok? ==> 0 <= TotalWork(tasks) < old(TotalWork(tasks))
    {
      hide TaskOk, LogOk, TotalWork;
      var i := 0;
      while i < |tasks| && tasks[i].spec.taskId != id
        invariant i <= |tasks|
        invariant forall j :: 0 <= j < i ==> tasks[j].spec.taskId != id
      {
        i := i + 1;
      }
      if i == |tasks| {
        return Err(NoSuchTask);
      }
      var t := tasks[i];
      if t.blocked.None? {
        return Err(NotBlocked);
      }
      AnswerLogged(State(), i, decision, now, log, answers);
      var u := t.(blocked := None);
      match decision {
        case Approve =>
          if t.step >= |t.spec.steps| {
            u := u.(finished := true);
          } else {
            u := u.(nextDue := Some(now));
          }
        case Deny => u := u.(pendingDeny := t.blocked, nextDue := Some(now));
      }
      tasks, answers := tasks[i := u], answers + [Answer(id, decision)];
      r := Ok(());
    }
  }

  class VirtualClock {
    var now: Time

    constructor (start: Time)
      ensures now == start
    {
      now := start;
    }

    method Advance(by_: Time)
      modifies this
      ensures now == old(now) + by_
    {
      now := now + by_;
    }

    method Set(to_: Time)
      modifies this
      ensures now == to_
    {
      now := to_;
    }
  }

  type Timeline = seq<(Time, AdapterOutput)>

  function Untimed(timeline: Timeline): seq<AdapterOutput> {
    seq(|timeline|, i requires 0 <= i < |timeline| => timeline[i].1)
  }

  function Stamped(now: Time, outputs: seq<AdapterOutput>): Timeline {
    seq(|outputs|, i requires 0 <= i < |outputs| => (now, outputs[i]))
  }

  lemma NothingStamped()
    ensures Untimed([]) == Outputs([])
  {
  }

  lemma StampedMore(timeline: Timeline, now: Time, before: seq<Emission>, logged: seq<Emission>, log: seq<Emission>)
    requires before <= logged <= log && Untimed(timeline) == Outputs(logged[|before|..])
    ensures Untimed(timeline + Stamped(now, Outputs(log[|logged|..]))) == Outputs(log[|before|..])
  {
    hide Outputs;
    OutputsMore(before, logged, log);
    var outputs := Outputs(log[|logged|..]);
    assert Untimed(timeline + Stamped(now, outputs)) == Untimed(timeline) + outputs;
  }

  /** How the driver's caller decides: whatever it was asked about before, in order, may matter. */
  type Policy = (seq<TaskId>, TaskId) -> Decision

  function Ids(answers: seq<Answer>): seq<TaskId> {
    seq(|answers|, i requires 0 <= i < |answers| => answers[i].taskId)
  }

  /** Each answer is what the policy decided when it was asked. */
  ghost predicate AsDecided(decide: Policy, answers: seq<Answer>) {
    forall k :: 0 <= k < |answers| ==> answers[k].decision == decide(Ids(answers[..k]), answers[k].taskId)
  }

  lemma DecidedNext(decide: Policy, answers: seq<Answer>, id: TaskId)
    requires AsDecided(decide, answers)
    ensures AsDecided(decide, answers + [Answer(id, decide(Ids(answers), id))])
    ensures Ids(answers + [Answer(id, decide(Ids(answers), id))]) == Ids(answers) + [id]
  {
    var longer := answers + [Answer(id, decide(Ids(answers), id))];
    assert longer[..|answers|] == answers;
    assert forall k :: 0 <= k < |answers| ==> longer[..k] == answers[..k];
  }

  /** Asks the policy about every blocked task, once and in order, and delivers what it decides. `asked` are
      the ids it was asked about before. */
  method AnswerAll(sim: Simulator, blocked: seq<TaskId>, at: Time, decide: Policy, asked: seq<TaskId>, ghost before: nat)
    returns (asked': seq<TaskId>)
    requires sim.Valid() && blocked != []
    requires forall k :: 0 <= k < |blocked| ==> WaitsAmong(sim.tasks, |sim.tasks|, blocked[k])
    requires forall j, k :: 0 <= j < k < |blocked| ==> blocked[j] != blocked[k]
    requires before <= |sim.answers| && AsDecided(decide, sim.answers[before..]) && asked == Ids(sim.answers[before..])
    modifies sim`tasks, sim`answers
    ensures sim.Valid() && |sim.tasks| == |old(sim.tasks)| && 0 <= TotalWork(sim.tasks) < old(TotalWork(sim.tasks))
    ensures forall i :: 0 <= i < |sim.tasks| ==> sim.tasks[i].spec == old(sim.tasks)[i].spec
    ensures old(sim.answers) <= sim.answers && AsDecided(decide, sim.answers[before..])
    ensures asked' == asked + blocked == Ids(sim.answers[before..])
  {
    hide TotalWork, SimOk, LogOk, AsDecided, Ids;
    asked' := asked;
    for k := 0 to |blocked|
      invariant sim.Valid() && |sim.tasks| == |old(sim.tasks)|
      invariant if k == 0 then sim.tasks == old(sim.tasks) else 0 <= TotalWork(sim.tasks) < old(TotalWork(sim.tasks))
      invariant forall i :: 0 <= i < |sim.tasks| ==> sim.tasks[i].spec == old(sim.tasks)[i].spec
      invariant forall m :: k <= m < |blocked| ==> WaitsAmong(sim.tasks, |sim.tasks|, blocked[m])
      invariant old(sim.answers) <= sim.answers && AsDecided(decide, sim.answers[before..])
      invariant asked' == asked + blocked[..k] == Ids(sim.answers[before..])
    {
      var decision := decide(asked', blocked[k]);
      ghost var tasks, answers := sim.tasks, sim.answers;
      DecidedNext(decide, answers[before..], blocked[k]);
      var r := sim.Respond(blocked[k], decision, at);
      assert r.Ok?;
      assert sim.answers[before..] == answers[before..] + [Answer(blocked[k], decision)];
      asked' := asked' + [blocked[k]];
      assert blocked[..k + 1] == blocked[..k] + [blocked[k]];
      forall m | k + 1 <= m < |blocked| ensures WaitsAmong(sim.tasks, |sim.tasks|, blocked[m]) {
        var i :| 0 <= i < |tasks| && tasks[i].blocked.Some? && tasks[i].spec.taskId == blocked[m];
        assert sim.tasks[i] == tasks[i];
      }
    }
    assert blocked[..|blocked|] == blocked;
  }

  /** Advances the clock through every due instant, answering requests after `responseDelay` as the policy
      decides, until nothing is left. It always ends, whatever the policy and the delay, with every task
      finished; the timeline is everything that was emitted, in order; and what each task said is the one
      sequence that the decisions on its own requests determine: its whole script if all were approved, or
      its script up to the first request denied and then the denial. */
  method RunToEnd(sim: Simulator, clock: VirtualClock, responseDelay: Time, decide: Policy) returns (timeline: Timeline)
    requires sim.Valid()
    modifies sim, clock
    ensures sim.Valid() && |sim.tasks| == |old(sim.tasks)|
    ensures forall i :: 0 <= i < |sim.tasks| ==>
              && sim.tasks[i].finished && sim.tasks[i].spec == old(sim.tasks)[i].spec
              && SaidAll(sim.tasks[i].spec, SaidBy(sim.log, i), HeardBy(sim.answers, sim.tasks[i].spec.taskId))
              && SaidBy(sim.log, i) == Conversation(sim.tasks[i].spec, HeardBy(sim.answers, sim.tasks[i].spec.taskId), 0)
    ensures old(sim.answers) <= sim.answers && AsDecided(decide, sim.answers[|old(sim.answers)|..])
    ensures old(sim.log) <= sim.log && Untimed(timeline) == Outputs(sim.log[|old(sim.log)|..])
    ensures forall agent :: Numbered(NumbersOf(sim.log, agent), |NumbersOf(sim.log, agent)|)
  {
    hide SimOk, LogOk, TotalWork, Polled, TaskOk, AsDecided, Ids, SaidAll, Conversation, Untimed, Outputs, Stamped;
    timeline := [];
    var asked: seq<TaskId> := [];
    ghost var before, answered := sim.log, |sim.answers|;
    NothingDecided(decide);
    NothingStamped();
    assert sim.log[|before|..] == [];
    assert sim.answers[answered..] == [];
    WorkOfOk(sim.State());
    while true
      invariant sim.Valid() && |sim.tasks| == |old(sim.tasks)| && before <= sim.log
      invariant forall i :: 0 <= i < |sim.tasks| ==> sim.tasks[i].spec == old(sim.tasks)[i].spec
      invariant Untimed(timeline) == Outputs(sim.log[|before|..])
      invariant old(sim.answers) <= sim.answers
      invariant AsDecided(decide, sim.answers[answered..]) && asked == Ids(sim.answers[answered..])
      invariant TotalWork(sim.tasks) >= 0
      decreases TotalWork(sim.tasks), if NextDueTask(sim.tasks, clock.now).Some? then 0 else 1
    {
      var now := clock.now;
      PolledOk(sim.draws, sim.State(), now);
      PolledSpecs(sim.draws, sim.State(), now);
      ghost var logged := sim.log;
      var outputs := sim.Poll(now);
      StampedMore(timeline, now, before, logged, sim.log);
      timeline := timeline + Stamped(now, outputs);
      var blocked := sim.BlockedTasks();
      if blocked != [] {
        clock.Advance(responseDelay);
        BlockedWaiting(sim.State());
        asked := AnswerAll(sim, blocked, clock.now, decide, asked, answered);
        continue;
      }
      var due := sim.NextDue();
      if due.None? {
        break;
      }
      clock.Set(Max(due.value, now));
      DueAfter(sim.tasks, now, due.value);
    }
    BlockedWaiting(sim.State());
    NobodyWaits(sim.tasks);
    AllFinished(sim.State(), sim.log, sim.answers);
  }

  lemma NothingDecided(decide: Policy)
    ensures AsDecided(decide, []) && Ids([]) == []
  {
  }

  lemma BlockedWaiting(s: Sim)
    requires SimOk(s)
    ensures forall id :: id in BlockedAmong(s.tasks) <==> WaitsAmong(s.tasks, |s.tasks|, id)
    ensures forall j, k :: 0 <= j < k < |BlockedAmong(s.tasks)| ==> BlockedAmong(s.tasks)[j] != BlockedAmong(s.tasks)[k]
  {
    BlockedAmongExactly(s.tasks);
  }

  lemma NobodyWaits(tasks: seq<TaskState>)
    requires forall id :: !WaitsAmong(tasks, |tasks|, id)
    ensures forall i :: 0 <= i < |tasks| ==> tasks[i].blocked.None?
  {
    forall i | 0 <= i < |tasks| ensures tasks[i].blocked.None? {
      assert !WaitsAmong(tasks, |tasks|, tasks[i].spec.taskId);
    }
  }

  /** Polling does not change which task is which. */
  lemma {:induction false} PolledSpecs(draws: Draws, s: Sim, now: Time)
    requires SimOk(s)
    ensures var s' := Polled(draws, s, now).0;
            |s'.tasks| == |s.tasks| && forall i :: 0 <= i < |s.tasks| ==> s'.tasks[i].spec == s.tasks[i].spec
    decreases TotalWork(s.tasks)
  {
    hide SimOk, AfterPiece, TotalWork, DueItem;
    var next := NextDueTask(s.tasks, now);
    if next.Some? {
      NextEmittable(s, now);
      EmittedOk(draws, s, next.value);
      PolledSpecs(draws, Emitted(draws, s, next.value).0, now);
      EmittedSpecs(draws, s, next.value);
    }
  }

  lemma EmittedSpecs(draws: Draws, s: Sim, ti: nat)
    requires SimOk(s) && ti < |s.tasks| && s.tasks[ti].nextDue.Some? && Emittable(s.tasks[ti])
    ensures forall i :: 0 <= i < |s.tasks| ==> Emitted(draws, s, ti).0.tasks[i].spec == s.tasks[i].spec
  {
    hide TaskOk, AfterPiece, DueItem;
    var t := s.tasks[ti];
    PieceDone(t, if JitterBound(t) == 0 then 0 else draws(s.rngPos, JitterBound(t)));
  }

  /** After the clock was set to the next due instant, something is due. */
  lemma DueAfter(tasks: seq<TaskState>, now: Time, due: Time)
    requires exists i :: 0 <= i < |tasks| && tasks[i].nextDue == Some(due)
    ensures NextDueTask(tasks, Max(due, now)).Some?
  {
    NextDueTaskIsNext(tasks, Max(due, now));
    var i :| 0 <= i < |tasks| && tasks[i].nextDue == Some(due);
    assert tasks[i].nextDue.value <= Max(due, now);
  }

  /** With nothing due and nothing blocked, every task is finished. */
  lemma AllFinished(s: Sim, log: seq<Emission>, answers: seq<Answer>)
    requires SimOk(s) && LogOk(s, log, answers)
    requires forall i :: 0 <= i < |s.tasks| ==> s.tasks[i].nextDue.None? && s.tasks[i].blocked.None?
    ensures forall i :: 0 <= i < |s.tasks| ==>
              var said, heard := SaidBy(log, i), HeardBy(answers, s.tasks[i].spec.taskId);
              && s.tasks[i].finished && SaidAll(s.tasks[i].spec, said, heard)
              && said == Conversation(s.tasks[i].spec, heard, 0)
    ensures forall agent :: Numbered(NumbersOf(log, agent), |NumbersOf(log, agent)|)
  {
    hide SaidAll, Conversation, HeardBy, SaidBy;
    forall i | 0 <= i < |s.tasks|
      ensures var said, heard := SaidBy(log, i), HeardBy(answers, s.tasks[i].spec.taskId);
              && s.tasks[i].finished && SaidAll(s.tasks[i].spec, said, heard)
              && said == Conversation(s.tasks[i].spec, heard, 0)
    {
      var said, heard := SaidBy(log, i), HeardBy(answers, s.tasks[i].spec.taskId);
      assert TaskOk(s.tasks[i]) && SaidOk(s.tasks[i], said, heard);
      SaidIsConversation(s.tasks[i].spec, said, heard);
    }
    forall agent ensures Numbered(NumbersOf(log, agent), |NumbersOf(log, agent)|) {
      assert Numbered(NumbersOf(log, agent), SeqOf(s.agentSeq, agent));
    }
  }
}
