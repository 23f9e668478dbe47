/** What a task emits over its life is its script: all of it, or all of it up to the first request denied and
    then the denial. */
module Scripts {
  import opened Types
  import opened Simulators
  import opened Text

  /** The outputs one step stands for. */
  function StepItems(spec: TaskSpec, step: ScriptStep): seq<Item> {
    match step
    case Started(message) => [EventItem("started", OrElse(message, spec.title), [], None)]
    case Progress(count, _, _, template) =>
      seq(Max(count, 1), i requires 0 <= i =>
        EventItem("progress", ProgressText(template, i + 1, count), [ProgressText(template, i + 1, count)], None))
    case Log(lines, _) => seq(|lines|, i requires 0 <= i < |lines| => LineItem(lines[i]))
    case Wait(_) => []
    case Ask(kind, prompt, _, message, _) => [EventItem(kind, OrElse(message, prompt), [], Some(prompt))]
    case Emit(kind, message, logLines, _) => [EventItem(kind, message, logLines, None)]
  }

  /** The outputs of the first `n` steps. */
  function Script(spec: TaskSpec, n: nat): seq<Item>
    requires n <= |spec.steps|
  {
    if n == 0 then [] else Script(spec, n - 1) + StepItems(spec, spec.steps[n - 1])
  }

  predicate NothingAfterTerminal(spec: TaskSpec) {
    forall k :: 0 <= k < |spec.steps| && spec.steps[k].Emit? && IsTerminalKind(spec.steps[k].eventKind) ==>
      k == |spec.steps| - 1
  }

  function BlockedAt(step: ScriptStep): Blocked
    requires step.Ask?
  {
    Blocked(step.prompt, step.onDenyKind)
  }

  /** What a task says when its request is denied. */
  function Refusal(step: ScriptStep): Item
    requires step.Ask?
  {
    EventItem(step.onDenyKind, "Denied: " + step.prompt, [], None)
  }

  /** How many of the first `n` steps ask something. */
  function Asks(spec: TaskSpec, n: nat): nat
    requires n <= |spec.steps|
  {
    if n == 0 then 0 else Asks(spec, n - 1) + if spec.steps[n - 1].Ask? then 1 else 0
  }

  ghost predicate AllApproved(heard: seq<Decision>) {
    forall d :: d in heard ==> d == Approve
  }

  ghost predicate DeniedLast(heard: seq<Decision>) {
    heard != [] && heard[|heard| - 1] == Deny && AllApproved(heard[..|heard| - 1])
  }

  /** The request at step `k` was denied, and those before it were approved. */
  ghost predicate DeniedAt(spec: TaskSpec, said: seq<Item>, heard: seq<Decision>, k: nat) {
    && k < |spec.steps| && spec.steps[k].Ask? && said == Script(spec, k + 1) + [Refusal(spec.steps[k])]
    && DeniedLast(heard) && |heard| == Asks(spec, k + 1)
  }

  /** The script was emitted in full, every request approved, or up to the first request denied and then the
      denial. */
  ghost predicate SaidAll(spec: TaskSpec, said: seq<Item>, heard: seq<Decision>) {
    || (said == Script(spec, |spec.steps|) && AllApproved(heard) && |heard| == Asks(spec, |spec.steps|))
    || exists k: nat :: DeniedAt(spec, said, heard, k)
  }

  /** `said` is what the task has emitted, and `heard` the decisions it was given, when it is in state `t`. */
  ghost predicate SaidOk(t: TaskState, said: seq<Item>, heard: seq<Decision>) {
    && t.step <= |t.spec.steps|
    && if t.finished then SaidAll(t.spec, said, heard)
       else if t.blocked.Some? || t.pendingDeny.Some? then
         && t.step >= 1 && t.spec.steps[t.step - 1].Ask?
         && said == Script(t.spec, t.step)
         && BlockedAt(t.spec.steps[t.step - 1]) == (if t.blocked.Some? then t.blocked.value else t.pendingDeny.value)
         && (if t.blocked.Some? then AllApproved(heard) && |heard| + 1 == Asks(t.spec, t.step)
             else DeniedLast(heard) && |heard| == Asks(t.spec, t.step))
       else
         && AllApproved(heard) && |heard| == Asks(t.spec, t.step)
         && (if t.step < |t.spec.steps| then
               && t.piece <= |StepItems(t.spec, t.spec.steps[t.step])|
               && said == Script(t.spec, t.step) + StepItems(t.spec, t.spec.steps[t.step])[..t.piece]
             else said == Script(t.spec, t.step))
  }

  // ---- progress templates ------------------------------------------------------------------------------

  lemma {:induction false} ReplaceFirst(a: string, pattern: string, b: string, with_: string)
    requires pattern != "" && pattern[0] !in a
    ensures Replace(a + pattern + b, pattern, with_) == a + with_ + Replace(b, pattern, with_)
  {
    var s := a + pattern + b;
    if a == "" {
      assert s[..|pattern|] == pattern && s[|pattern|..] == b;
    } else {
      assert s[..|pattern|][0] == a[0] && a[0] in a;
      assert s[1..] == a[1..] + pattern + b;
      ReplaceFirst(a[1..], pattern, b, with_);
      assert [a[0]] + (a[1..] + with_ + Replace(b, pattern, with_)) == a + with_ + Replace(b, pattern, with_);
    }
  }

  /** A text in which every brace opens another name is left alone. */
  lemma {:induction false} ReplaceNothing(a: string, pattern: string, with_: string)
    requires |pattern| >= 2 && forall i :: 0 <= i < |a| - 1 && a[i] == pattern[0] ==> a[i + 1] != pattern[1]
    ensures Replace(a, pattern, with_) == a
  {
    if |a| >= |pattern| {
      assert a[..|pattern|][0] == a[0] && a[..|pattern|][1] == a[1];
      ReplaceNothing(a[1..], pattern, with_);
      assert [a[0]] + a[1..] == a;
    }
  }

  lemma {:induction false} NoBraces(n: nat)
    ensures '{' !in Decimal(n)
  {
    if n >= 10 {
      NoBraces(n / 10);
    }
  }

  /** A progress message is its template with the number of the piece and the count put in. */
  lemma ProgressFilledIn(a: string, b: string, c: string, i: nat, n: nat)
    requires '{' !in a && '{' !in b && '{' !in c
    ensures ProgressText(a + "{i}" + b + "{n}" + c, i, n) == a + Decimal(i) + b + Decimal(n) + c
  {
    hide Decimal, Replace;
    NoBraces(i);
    NoBraces(n);
    var rest := b + "{n}" + c;
    assert a + "{i}" + b + "{n}" + c == a + "{i}" + rest;
    ReplaceFirst(a, "{i}", rest, Decimal(i));
    ReplaceNothing(rest, "{i}", Decimal(i));
    assert a + Decimal(i) + rest == (a + Decimal(i) + b) + "{n}" + c;
    ReplaceFirst(a + Decimal(i) + b, "{n}", c, Decimal(n));
    ReplaceNothing(c, "{n}", Decimal(n));
  }

  /** What a task says from step `k` on if its requests get these decisions, in order: at the first denial it
      says so and stops; without a decision it waits. */
  function Conversation(spec: TaskSpec, heard: seq<Decision>, k: nat): seq<Item>
    requires k <= |spec.steps|
    decreases |spec.steps| - k
  {
    if k == |spec.steps| then []
    else
      StepItems(spec, spec.steps[k]) +
      if !spec.steps[k].Ask? then Conversation(spec, heard, k + 1)
      else if heard == [] then []
      else if heard[0] == Deny then [Refusal(spec.steps[k])]
      else Conversation(spec, heard[1..], k + 1)
  }

  /** The steps before `k` say their script, as long as all they asked was approved. */
  lemma {:induction false} ConversationSplits(spec: TaskSpec, heard: seq<Decision>, k: nat)
    requires k <= |spec.steps| && Asks(spec, k) <= |heard| && AllApproved(heard[..Asks(spec, k)])
    ensures Conversation(spec, heard, 0) == Script(spec, k) + Conversation(spec, heard[Asks(spec, k)..], k)
  {
    hide StepItems;
    if k == 0 {
      assert [] + Conversation(spec, heard, 0) == Conversation(spec, heard, 0) && heard[0..] == heard;
    } else {
      var a, step := Asks(spec, k - 1), spec.steps[k - 1];
      assert AllApproved(heard[..a]) by {
        assert forall d :: d in heard[..a] ==> d in heard[..Asks(spec, k)];
      }
      ConversationSplits(spec, heard, k - 1);
      var items, rest := StepItems(spec, step), Conversation(spec, heard[Asks(spec, k)..], k);
      if step.Ask? {
        assert heard[a..][1..] == heard[a + 1..];
        assert heard[a..][0] == heard[..a + 1][a] && heard[..a + 1][a] in heard[..a + 1];
        assert heard[a] == Approve;
      }
      assert Conversation(spec, heard[a..], k - 1) == items + rest;
      assert Script(spec, k - 1) + (items + rest) == Script(spec, k) + rest;
    }
  }

  /** The decisions determine all that a finished task has said. */
  lemma SaidIsConversation(spec: TaskSpec, said: seq<Item>, heard: seq<Decision>)
    requires SaidAll(spec, said, heard)
    ensures said == Conversation(spec, heard, 0)
  {
    hide StepItems, Script, Asks;
    if said == Script(spec, |spec.steps|) && AllApproved(heard) && |heard| == Asks(spec, |spec.steps|) {
      assert heard[..|heard|] == heard;
      ConversationSplits(spec, heard, |spec.steps|);
    } else {
      var k: nat :| DeniedAt(spec, said, heard, k);
      AsksOneMore(spec, k);
      ConversationSplits(spec, heard, k);
      var items, denial := StepItems(spec, spec.steps[k]), [Refusal(spec.steps[k])];
      assert Script(spec, k) + (items + denial) == (Script(spec, k) + items) + denial;
    }
  }

  lemma AsksOneMore(spec: TaskSpec, k: nat)
    requires k < |spec.steps|
    ensures Asks(spec, k + 1) == Asks(spec, k) + if spec.steps[k].Ask? then 1 else 0
    ensures Script(spec, k + 1) == Script(spec, k) + StepItems(spec, spec.steps[k])
  {
  }

  lemma ItemIsNext(t: TaskState)
    requires TaskOk(t) && AtStep(t)
    ensures Emittable(t)
    ensures var items := StepItems(t.spec, t.spec.steps[t.step]);
            if t.spec.steps[t.step].Wait? then DueItem(t).None? && items == []
            else t.piece < |items| && DueItem(t) == Some(items[t.piece])
    ensures |StepItems(t.spec, t.spec.steps[t.step])|
         == if t.spec.steps[t.step].Wait? then 0 else if t.spec.steps[t.step].Ask? then 1 else Pieces(t.spec.steps[t.step])
  {
  }

  lemma AdvancedSaid(t: TaskState, said: seq<Item>, heard: seq<Decision>)
    requires t.step < |t.spec.steps| && !t.finished && t.pendingDeny.None?
    requires said == Script(t.spec, t.step) + StepItems(t.spec, t.spec.steps[t.step])
    requires AllApproved(heard) && |heard| == Asks(t.spec, t.step)
    requires if t.blocked.Some? then t.spec.steps[t.step].Ask? && t.blocked == Some(BlockedAt(t.spec.steps[t.step]))
             else !t.spec.steps[t.step].Ask?
    ensures SaidOk(Advanced(t), said, heard)
  {
    hide StepItems;
    AsksOneMore(t.spec, t.step);
    assert Script(t.spec, t.step + 1) == said;
  }

  /** Emitting the due piece appends it to what was said. */
  lemma PieceSaid(t: TaskState, said: seq<Item>, heard: seq<Decision>, jitter: nat)
    requires TaskOk(t) && t.nextDue.Some? && SaidOk(t, said, heard) && NothingAfterTerminal(t.spec) && Emittable(t)
    ensures SaidOk(AfterPiece(t, jitter), said + (if DueItem(t).Some? then [DueItem(t).value] else []), heard)
  {
    hide StepItems, IsTerminalKind, DueItem, Asks;
    if t.pendingDeny.Some? {
      assert DueItem(t) == Some(Denial(t.pendingDeny.value)) by { DueDenial(t); }
      assert DeniedAt(t.spec, said + [Denial(t.pendingDeny.value)], heard, t.step - 1);
    } else if t.step < |t.spec.steps| {
      ItemIsNext(t);
      var step := t.spec.steps[t.step];
      var items := StepItems(t.spec, step);
      var now := said + (if DueItem(t).Some? then [DueItem(t).value] else []);
      if !step.Wait? {
        assert items[..t.piece + 1] == items[..t.piece] + [items[t.piece]];
      }
      assert now == Script(t.spec, t.step) + items[..t.piece + (if step.Wait? then 0 else 1)];
      StepSaid(t, now, heard, jitter);
    } else {
      assert DueItem(t) == None by { NothingDueAtEnd(t); }
    }
  }

  lemma DueDenial(t: TaskState)
    requires t.pendingDeny.Some?
    ensures Emittable(t) && DueItem(t) == Some(Denial(t.pendingDeny.value))
  {
  }

  lemma NothingDueAtEnd(t: TaskState)
    requires t.pendingDeny.None? && t.step >= |t.spec.steps|
    ensures Emittable(t) && DueItem(t) == None
  {
  }

  lemma StepSaid(t: TaskState, now: seq<Item>, heard: seq<Decision>, jitter: nat)
    requires TaskOk(t) && t.nextDue.Some? && AtStep(t) && NothingAfterTerminal(t.spec)
    requires var step := t.spec.steps[t.step];
             var items := StepItems(t.spec, step);
             && |items| == (if step.Wait? then 0 else if step.Ask? then 1 else Pieces(step))
             && now == Script(t.spec, t.step) + items[..t.piece + (if step.Wait? then 0 else 1)]
    requires AllApproved(heard) && |heard| == Asks(t.spec, t.step)
    ensures SaidOk(AfterPiece(t, jitter), now, heard)
  {
    hide StepItems, IsTerminalKind;
    AsksOneMore(t.spec, t.step);
    var step := t.spec.steps[t.step];
    var items := StepItems(t.spec, step);
    if t.piece + (if step.Wait? then 0 else 1) == |items| {
      assert items[..|items|] == items;
      match step
      case Started(_) => AdvancedSaid(t, now, heard);
      case Progress(count, interval, _, _) => AdvancedSaid(Later(t, interval + jitter).(piece := t.piece + 1), now, heard);
      case Log(lines, interval) => AdvancedSaid(Later(t, interval).(piece := t.piece + 1), now, heard);
      case Wait(ms) => AdvancedSaid(Later(t, ms), now, heard);
      case Ask(_, prompt, _, _, onDenyKind) =>
        AdvancedSaid(t.(blocked := Some(Blocked(prompt, onDenyKind)), nextDue := None), now, heard);
      case Emit(kind, _, _, delay) =>
        if IsTerminalKind(kind) {
          assert Script(t.spec, t.step + 1) == now;
        } else {
          AdvancedSaid(Later(t, delay), now, heard);
        }
    }
  }

  lemma AnswerSaid(t: TaskState, said: seq<Item>, heard: seq<Decision>, decision: Decision, now: Time)
    requires TaskOk(t) && t.blocked.Some? && SaidOk(t, said, heard)
    ensures SaidOk(Answered(t, decision, now), said, heard + [decision])
  {
    hide StepItems, Asks;
    assert (heard + [decision])[..|heard|] == heard;
    if t.step < |t.spec.steps| {
      assert StepItems(t.spec, t.spec.steps[t.step])[..0] == [];
    }
  }

  // ---- the record of everything emitted ------------------------------------------------------------

  function ItemOf(output: AdapterOutput): Item {
    match output
    case OutEvent(raw) => EventItem(raw.kind, raw.message, raw.logLines, raw.request)
    case OutLine(_, text) => LineItem(text)
  }

  function SaidBy(log: seq<Emission>, ti: nat): seq<Item> {
    if log == [] then []
    else
      var last := log[|log| - 1];
      SaidBy(log[..|log| - 1], ti) + (if last.task == ti then [ItemOf(last.output)] else [])
  }

  datatype Answer = Answer(taskId: TaskId, decision: Decision)

  /** The decisions a task was given, in order. */
  function HeardBy(answers: seq<Answer>, id: TaskId): seq<Decision> {
    if answers == [] then []
    else
      var last := answers[|answers| - 1];
      HeardBy(answers[..|answers| - 1], id) + (if last.taskId == id then [last.decision] else [])
  }

  /** The numbers given to an agent's events, in order. */
  function NumbersOf(log: seq<Emission>, agent: AgentId): seq<nat> {
    if log == [] then []
    else
      var last := log[|log| - 1];
      NumbersOf(log[..|log| - 1], agent)
        + (if last.output.OutEvent? && last.output.raw.agentId == agent then [last.output.raw.agentSeq] else [])
  }

  ghost predicate Numbered(numbers: seq<nat>, count: nat) {
    |numbers| == count && forall k :: 0 <= k < count ==> numbers[k] == k + 1
  }

  /** Every output carries its task's and agent's name. */
  ghost predicate Labelled(e: Emission, tasks: seq<TaskState>) {
    && e.task < |tasks|
    && match e.output
       case OutEvent(raw) =>
         && raw.agentId == tasks[e.task].spec.agentId && raw.taskId == Some(tasks[e.task].spec.taskId)
         && raw.operation == tasks[e.task].spec.operation
       case OutLine(agent, _) => agent == tasks[e.task].spec.agentId
  }

  ghost predicate LogOk(s: Sim, log: seq<Emission>, answers: seq<Answer>) {
    && (forall i :: 0 <= i < |s.tasks| ==>
          && SaidOk(s.tasks[i], SaidBy(log, i), HeardBy(answers, s.tasks[i].spec.taskId))
          && NothingAfterTerminal(s.tasks[i].spec))
    && (forall agent :: Numbered(NumbersOf(log, agent), SeqOf(s.agentSeq, agent)))
    && (forall e :: e in log ==> Labelled(e, s.tasks))
  }

  lemma LastSaid(log: seq<Emission>, e: Emission, ti: nat, agent: AgentId)
    ensures SaidBy(log + [e], ti) == if e.task == ti then SaidBy(log, ti) + [ItemOf(e.output)] else SaidBy(log, ti)
    ensures NumbersOf(log + [e], agent)
         == if e.output.OutEvent? && e.output.raw.agentId == agent
            then NumbersOf(log, agent) + [e.output.raw.agentSeq] else NumbersOf(log, agent)
  {
    assert (log + [e])[..|log|] == log;
  }

  /** Recording an emission keeps the record in step with the tasks. */
  lemma EmittedLogged(draws: Draws, s: Sim, ti: nat, log: seq<Emission>, answers: seq<Answer>)
    requires SimOk(s) && LogOk(s, log, answers) && ti < |s.tasks| && s.tasks[ti].nextDue.Some? && Emittable(s.tasks[ti])
    ensures var (s', out) := Emitted(draws, s, ti); LogOk(s', log + out, answers)
  {
    hide TaskOk, SaidOk, DueItem, AfterPiece, NothingAfterTerminal, SaidBy, HeardBy, NumbersOf, Numbered, Labelled;
    var t := s.tasks[ti];
    var bound := JitterBound(t);
    var jitter := if bound == 0 then 0 else draws(s.rngPos, bound);
    var (s', out) := Emitted(draws, s, ti);
    PieceDone(t, jitter);
    PieceSaid(t, SaidBy(log, ti), HeardBy(answers, t.spec.taskId), jitter);
    if out == [] {
      assert log + out == log;
      assert SaidBy(log, ti) + [] == SaidBy(log, ti);
      forall older | older in log ensures Labelled(older, s'.tasks) {
        StillLabelled(older, s.tasks, s'.tasks);
      }
    } else {
      var e := out[0];
      assert out == [e] && ItemOf(e.output) == DueItem(t).value;
      forall i | 0 <= i < |s'.tasks| ensures SaidOk(s'.tasks[i], SaidBy(log + out, i), HeardBy(answers, s'.tasks[i].spec.taskId)) {
        LastSaid(log, e, i, t.spec.agentId);
      }
      forall agent ensures Numbered(NumbersOf(log + out, agent), SeqOf(s'.agentSeq, agent)) {
        LastSaid(log, e, ti, agent);
        OneMoreNumber(NumbersOf(log, agent), SeqOf(s.agentSeq, agent));
      }
      EmissionLabelled(draws, s, ti);
      forall older | older in log ensures Labelled(older, s'.tasks) {
        StillLabelled(older, s.tasks, s'.tasks);
      }
    }
  }

  lemma OneMoreNumber(numbers: seq<nat>, count: nat)
    requires Numbered(numbers, count)
    ensures Numbered(numbers + [count + 1], count + 1)
  {
  }

  lemma EmissionLabelled(draws: Draws, s: Sim, ti: nat)
    requires ti < |s.tasks| && s.tasks[ti].nextDue.Some? && Emittable(s.tasks[ti])
    requires AfterPiece(s.tasks[ti], if JitterBound(s.tasks[ti]) == 0 then 0 else draws(s.rngPos, JitterBound(s.tasks[ti]))).spec
               == s.tasks[ti].spec
    ensures forall e :: e in Emitted(draws, s, ti).1 ==> Labelled(e, Emitted(draws, s, ti).0.tasks)
  {
    hide AfterPiece, DueItem, JitterBound;
  }

  lemma StillLabelled(e: Emission, tasks: seq<TaskState>, tasks': seq<TaskState>)
    requires Labelled(e, tasks) && |tasks'| == |tasks| && forall i :: 0 <= i < |tasks| ==> tasks'[i].spec == tasks[i].spec
    ensures Labelled(e, tasks')
  {
  }

  lemma {:induction false} PolledLogged(draws: Draws, s: Sim, now: Time, log: seq<Emission>, answers: seq<Answer>)
    requires SimOk(s) && LogOk(s, log, answers)
    ensures var (s', out) := Polled(draws, s, now); LogOk(s', log + out, answers)
    decreases TotalWork(s.tasks)
  {
    hide SimOk, LogOk, Emitted, TotalWork, NextDueTask;
    var next := NextDueTask(s.tasks, now);
    if next.None? {
      assert log + [] == log;
    } else {
      NextEmittable(s, now);
      EmittedOk(draws, s, next.value);
      EmittedLogged(draws, s, next.value, log, answers);
      var (s', first) := Emitted(draws, s, next.value);
      PolledLogged(draws, s', now, log + first, answers);
      assert (log + first) + Polled(draws, s', now).1 == log + (first + Polled(draws, s', now).1);
    }
  }

  lemma LastHeard(answers: seq<Answer>, answer: Answer, id: TaskId)
    ensures HeardBy(answers + [answer], id) ==
              if answer.taskId == id then HeardBy(answers, id) + [answer.decision] else HeardBy(answers, id)
  {
    assert (answers + [answer])[..|answers|] == answers;
  }

  lemma AnswerLogged(s: Sim, ti: nat, decision: Decision, now: Time, log: seq<Emission>, answers: seq<Answer>)
    requires SimOk(s) && LogOk(s, log, answers) && ti < |s.tasks| && s.tasks[ti].blocked.Some?
    ensures var s' := s.(tasks := s.tasks[ti := Answered(s.tasks[ti], decision, now)]);
            && SimOk(s') && LogOk(s', log, answers + [Answer(s.tasks[ti].spec.taskId, decision)])
            && 0 <= TotalWork(s'.tasks) < TotalWork(s.tasks)
  {
    hide TaskOk, SaidOk, Work, NothingAfterTerminal, Answered, HeardBy;
    var t := s.tasks[ti];
    AnswerDone(t, decision, now);
    AnswerSaid(t, SaidBy(log, ti), HeardBy(answers, t.spec.taskId), decision, now);
    var s' := s.(tasks := s.tasks[ti := Answered(t, decision, now)]);
    TotalWorkOf(s.tasks, ti, Answered(t, decision, now));
    TotalWorkNonNegative(s'.tasks);
    var answers' := answers + [Answer(t.spec.taskId, decision)];
    forall i | 0 <= i < |s'.tasks|
      ensures SaidOk(s'.tasks[i], SaidBy(log, i), HeardBy(answers', s'.tasks[i].spec.taskId))
    {
      LastHeard(answers, Answer(t.spec.taskId, decision), s'.tasks[i].spec.taskId);
    }
    forall e | e in log ensures Labelled(e, s'.tasks) {
      StillLabelled(e, s.tasks, s'.tasks);
    }
  }
}
