/** The scripted agent: tasks that emit the pieces of their scripts at their due times. */
module Simulators {
  import opened Types
  import opened Classifier
  import opened Text

  const MILLISECOND: int := 1_000_000

  // ---- scenarios --------------------------------------------------------------------------------

  datatype ScriptStep =
    | Started(message: Option<string>)
    | Progress(count: nat, intervalMs: nat, jitterMs: nat, template: string)
    | Log(lines: seq<string>, logIntervalMs: nat)
    | Wait(ms: nat)
    | Ask(kind: string, prompt: string, options: seq<string>, askMessage: Option<string>, onDenyKind: string)
    | Emit(eventKind: string, eventMessage: string, logLines: seq<string>, delayMs: nat)

  datatype TaskSpec = TaskSpec(
    taskId: TaskId, agentId: AgentId, title: string, operation: Operation, startOffsetMs: nat, steps: seq<ScriptStep>)

  /** Kinds that the classifier counts as a completion or an error. */
  predicate IsTerminalKind(kind: string) {
    Classify(kind).category == Completed || Classify(kind).category == Error
  }

  // ---- task states ------------------------------------------------------------------------------

  datatype Blocked = Blocked(prompt: string, onDenyKind: string)

  datatype TaskState = TaskState(
    spec: TaskSpec,
    step: nat,
    piece: nat,
    nextDue: Option<Time>,
    blocked: Option<Blocked>,
    pendingDeny: Option<Blocked>,
    finished: bool)

  /** What a task emits, without the numbering of its agent's events. */
  datatype Item =
    | EventItem(kind: string, message: string, logLines: seq<string>, request: Option<string>)
    | LineItem(text: string)

  datatype AdapterOutput = OutEvent(raw: RawEvent) | OutLine(agent: AgentId, text: string)

  function OrElse(message: Option<string>, default_: string): string {
    if message.Some? then message.value else default_
  }

  function ProgressText(template: string, i: nat, n: nat): string {
    Replace(Replace(template, "{i}", Decimal(i)), "{n}", Decimal(n))
  }

  function Denial(b: Blocked): Item {
    EventItem(b.onDenyKind, "Denied: " + b.prompt, [], None)
  }

  predicate AtStep(t: TaskState) {
    t.pendingDeny.None? && t.step < |t.spec.steps|
  }

  /** Indexing past the lines of a log step would panic. */
  predicate Emittable(t: TaskState) {
    AtStep(t) && t.spec.steps[t.step].Log? ==> t.piece < |t.spec.steps[t.step].lines|
  }

  /** The piece that is due, if it produces output. */
  function DueItem(t: TaskState): Option<Item>
    requires Emittable(t)
  {
    if t.pendingDeny.Some? then Some(Denial(t.pendingDeny.value))
    else if t.step >= |t.spec.steps| then None
    else match t.spec.steps[t.step]
      case Started(message) => Some(EventItem("started", OrElse(message, t.spec.title), [], None))
      case Progress(count, _, _, template) =>
        var text := ProgressText(template, t.piece + 1, count);
        Some(EventItem("progress", text, [text], None))
      case Log(lines, _) => Some(LineItem(lines[t.piece]))
      case Wait(_) => None
      case Ask(kind, prompt, _, message, _) => Some(EventItem(kind, OrElse(message, prompt), [], Some(prompt)))
      case Emit(kind, message, logLines, _) => Some(EventItem(kind, message, logLines, None))
  }

  function Finished(t: TaskState): TaskState {
    t.(finished := true, nextDue := None, blocked := None)
  }

  function Advanced(t: TaskState): TaskState {
    var u := t.(step := t.step + 1, piece := 0);
    if u.step >= |u.spec.steps| && u.blocked.None? then Finished(u) else u
  }

  function Later(t: TaskState, ms: nat): TaskState
    requires t.nextDue.Some?
  {
    t.(nextDue := Some(t.nextDue.value + ms * MILLISECOND))
  }

  /** Whether emitting the due piece draws a jitter, and its bound. */
  function JitterBound(t: TaskState): nat {
    if AtStep(t) && t.spec.steps[t.step].Progress? then t.spec.steps[t.step].jitterMs else 0
  }

  /** The task after its due piece was emitted; `jitter` is the drawn delay. */
  function AfterPiece(t: TaskState, jitter: nat): TaskState
    requires t.nextDue.Some?
  {
    if t.pendingDeny.Some? then Finished(t.(pendingDeny := None))
    else if t.step >= |t.spec.steps| then Finished(t)
    else match t.spec.steps[t.step]
      case Started(_) => Advanced(t)
      case Progress(count, interval, _, _) =>
        var u := Later(t, interval + jitter).(piece := t.piece + 1);
        if u.piece >= count then Advanced(u) else u
      case Log(lines, interval) =>
        var u := Later(t, interval).(piece := t.piece + 1);
        if u.piece >= |lines| then Advanced(u) else u
      case Wait(ms) => Advanced(Later(t, ms))
      case Ask(_, prompt, _, _, onDenyKind) =>
        Advanced(t.(blocked := Some(Blocked(prompt, onDenyKind)), nextDue := None))
      case Emit(kind, _, _, delay) => if IsTerminalKind(kind) then Finished(t) else Advanced(Later(t, delay))
  }

  function Answered(t: TaskState, decision: Decision, now: Time): TaskState
    requires t.blocked.Some?
  {
    var u := t.(blocked := None);
    match decision
    case Approve => if t.step >= |t.spec.steps| then u.(finished := true) else u.(nextDue := Some(now))
    case Deny => u.(pendingDeny := t.blocked, nextDue := Some(now))
  }

  // ---- the simulator as a value -------------------------------------------------------------------

  /** Random delays, as an arbitrary function of the position in the stream and the bound. */
  type Draws = (nat, nat) -> nat

  datatype Sim = Sim(tasks: seq<TaskState>, agentSeq: map<AgentId, nat>, rngPos: nat)

  /** One emitted output, with the task that emitted it and when it was due. */
  datatype Emission = Emission(task: nat, due: Time, output: AdapterOutput)

  function SeqOf(agentSeq: map<AgentId, nat>, agent: AgentId): nat {
    if agent in agentSeq then agentSeq[agent] else 0
  }

  function OutputOf(spec: TaskSpec, item: Item, seqNo: nat): AdapterOutput {
    match item
    case EventItem(kind, message, logLines, request) =>
      OutEvent(RawEvent(spec.agentId, seqNo, Some(spec.taskId), kind, spec.operation, message, logLines, request))
    case LineItem(text) => OutLine(spec.agentId, text)
  }

  function Emitted(draws: Draws, s: Sim, ti: nat): (Sim, seq<Emission>)
    requires ti < |s.tasks| && s.tasks[ti].nextDue.Some? && Emittable(s.tasks[ti])
  {
    var t := s.tasks[ti];
    var bound := JitterBound(t);
    var jitter := if bound == 0 then 0 else draws(s.rngPos, bound);
    var item := DueItem(t);
    var next := SeqOf(s.agentSeq, t.spec.agentId) + 1;
    (Sim(s.tasks[ti := AfterPiece(t, jitter)],
         if item.Some? && item.value.EventItem? then s.agentSeq[t.spec.agentId := next] else s.agentSeq,
         if bound == 0 then s.rngPos else s.rngPos + 1),
     if item.Some? then [Emission(ti, t.nextDue.value, OutputOf(t.spec, item.value, next))] else [])
  }

  /** Earlier due time first, then lower index. */
  ghost predicate IsNext(tasks: seq<TaskState>, now: Time, i: nat) {
    && i < |tasks| && tasks[i].nextDue.Some? && tasks[i].nextDue.value <= now
    && forall j :: 0 <= j < |tasks| && j != i && tasks[j].nextDue.Some? ==>
         tasks[i].nextDue.value < tasks[j].nextDue.value || (tasks[i].nextDue.value == tasks[j].nextDue.value && i < j)
  }

  ghost predicate NothingDue(tasks: seq<TaskState>, now: Time) {
    forall i :: 0 <= i < |tasks| && tasks[i].nextDue.Some? ==> now < tasks[i].nextDue.value
  }

  /** The index of the earliest task among the first `n`, if any of them is due at some time. */
  function Earliest(tasks: seq<TaskState>, n: nat): (r: Option<nat>)
    requires n <= |tasks|
    ensures r.Some? ==> r.value < n && tasks[r.value].nextDue.Some?
  {
    if n == 0 then None
    else
      var before := Earliest(tasks, n - 1);
      var t := tasks[n - 1];
      if t.nextDue.None? then before
      else if before.None? || t.nextDue.value < tasks[before.value].nextDue.value then Some(n - 1)
      else before
  }

  function NextDueTask(tasks: seq<TaskState>, now: Time): (r: Option<nat>)
    ensures r.Some? ==> r.value < |tasks| && tasks[r.value].nextDue.Some? && tasks[r.value].nextDue.value <= now
  {
    var e := Earliest(tasks, |tasks|);
    if e.Some? && tasks[e.value].nextDue.value <= now then e else None
  }

  lemma {:induction false} EarliestIsFirst(tasks: seq<TaskState>, n: nat)
    requires n <= |tasks|
    ensures var r := Earliest(tasks, n);
            && (r.None? <==> forall j :: 0 <= j < n ==> tasks[j].nextDue.None?)
            && (r.Some? ==> forall j :: 0 <= j < n && j != r.value && tasks[j].nextDue.Some? ==>
                  tasks[r.value].nextDue.value < tasks[j].nextDue.value ||
                  (tasks[r.value].nextDue.value == tasks[j].nextDue.value && r.value < j))
  {
    if n > 0 {
      EarliestIsFirst(tasks, n - 1);
    }
  }

  /** The chosen task is the earliest due one, ties broken by index; none is chosen exactly when
      nothing is due. */
  lemma NextDueTaskIsNext(tasks: seq<TaskState>, now: Time)
    ensures var r := NextDueTask(tasks, now);
            && (r.Some? ==> IsNext(tasks, now, r.value))
            && (r.None? <==> NothingDue(tasks, now))
  {
    EarliestIsFirst(tasks, |tasks|);
  }

  lemma NextIsUnique(tasks: seq<TaskState>, now: Time, i: nat)
    requires IsNext(tasks, now, i)
    ensures NextDueTask(tasks, now) == Some(i)
  {
    NextDueTaskIsNext(tasks, now);
  }

  // ---- remaining work -----------------------------------------------------------------------------

  function Pieces(step: ScriptStep): nat {
    match step
    case Progress(count, _, _, _) => Max(count, 1)
    case Log(lines, _) => Max(|lines|, 1)
    case Ask(_, _, _, _, _) => 2
    case _ => 1
  }

  function PiecesFrom(steps: seq<ScriptStep>, k: nat): nat
    decreases |steps| - k
  {
    if k >= |steps| then 0 else Pieces(steps[k]) + PiecesFrom(steps, k + 1)
  }

  /** How many more pieces of work a task can still need. */
  function Work(t: TaskState): int {
    if t.finished then 0
    else if t.pendingDeny.Some? then 1
    else 1 + PiecesFrom(t.spec.steps, t.step) - t.piece + (if t.blocked.Some? then 1 else 0)
  }

  /** A task is exactly one of finished, due and blocked. */
  ghost predicate TaskOk(t: TaskState) {
    && (t.finished ==> t.nextDue.None? && t.blocked.None? && t.pendingDeny.None?)
    && (!t.finished ==> (t.nextDue.Some? <==> t.blocked.None?))
    && (t.pendingDeny.Some? ==> t.blocked.None?)
    && (t.step < |t.spec.steps| ==> t.piece < Pieces(t.spec.steps[t.step]) && (t.spec.steps[t.step].Ask? ==> t.piece == 0))
    && (t.step >= |t.spec.steps| ==> t.piece == 0)
    && (t.blocked.Some? ==> t.piece == 0)
    && LogsNonEmpty(t.spec)
  }

  predicate LogsNonEmpty(spec: TaskSpec) {
    forall k :: 0 <= k < |spec.steps| && spec.steps[k].Log? ==> spec.steps[k].lines != []
  }

  ghost predicate SimOk(s: Sim) {
    && (forall i :: 0 <= i < |s.tasks| ==> TaskOk(s.tasks[i]))
    && (forall i, j :: 0 <= i < |s.tasks| && 0 <= j < |s.tasks| && s.tasks[i].spec.taskId == s.tasks[j].spec.taskId ==> i == j)
  }

  lemma OkIsEmittable(t: TaskState)
    requires TaskOk(t)
    ensures Emittable(t)
  {
  }

  lemma WorkBounds(t: TaskState)
    requires TaskOk(t)
    ensures Work(t) >= 0 && (Work(t) == 0 ==> t.finished)
  {
  }

  /** Emitting a piece uses up work, keeps a task in order, and never schedules into the past. */
  lemma PieceDone(t: TaskState, jitter: nat)
    requires TaskOk(t) && t.nextDue.Some?
    ensures var u := AfterPiece(t, jitter);
            && TaskOk(u) && u.spec == t.spec && 0 <= Work(u) < Work(t)
            && (u.nextDue.Some? ==> u.nextDue.value >= t.nextDue.value)
  {
    hide TaskOk, Work, AfterPiece;
    PieceKeepsOk(t, jitter);
    PieceUsesWork(t, jitter);
    PieceNotEarlier(t, jitter);
  }

  lemma PieceKeepsOk(t: TaskState, jitter: nat)
    requires TaskOk(t) && t.nextDue.Some?
    ensures TaskOk(AfterPiece(t, jitter)) && AfterPiece(t, jitter).spec == t.spec
  {
    hide IsTerminalKind, LogsNonEmpty;
    NextPieces(t.spec);
  }

  lemma NextPieces(spec: TaskSpec)
    ensures forall k :: 0 <= k < |spec.steps| ==> Pieces(spec.steps[k]) >= 1
  {
  }

  lemma PieceUsesWork(t: TaskState, jitter: nat)
    requires TaskOk(t) && t.nextDue.Some?
    ensures 0 <= Work(AfterPiece(t, jitter)) < Work(t)
  {
    hide IsTerminalKind, LogsNonEmpty;
  }

  lemma PieceNotEarlier(t: TaskState, jitter: nat)
    requires TaskOk(t) && t.nextDue.Some?
    ensures var u := AfterPiece(t, jitter); u.nextDue.Some? ==> u.nextDue.value >= t.nextDue.value
  {
    hide IsTerminalKind;
  }

  lemma AnswerDone(t: TaskState, decision: Decision, now: Time)
    requires TaskOk(t) && t.blocked.Some?
    ensures var u := Answered(t, decision, now); TaskOk(u) && u.spec == t.spec && 0 <= Work(u) < Work(t)
  {
  }

  function TotalWork(tasks: seq<TaskState>): int {
    if tasks == [] then 0 else TotalWork(tasks[..|tasks| - 1]) + Work(tasks[|tasks| - 1])
  }

  lemma {:induction false} TotalWorkOf(tasks: seq<TaskState>, i: nat, t: TaskState)
    requires i < |tasks|
    ensures TotalWork(tasks[i := t]) == TotalWork(tasks) - Work(tasks[i]) + Work(t)
  {
    var last := |tasks| - 1;
    if i == last {
      assert tasks[i := t][..last] == tasks[..last];
    } else {
      TotalWorkOf(tasks[..last], i, t);
      assert tasks[i := t][..last] == tasks[..last][i := t];
    }
  }

  lemma {:induction false} TotalWorkNonNegative(tasks: seq<TaskState>)
    requires forall i :: 0 <= i < |tasks| ==> TaskOk(tasks[i])
    ensures TotalWork(tasks) >= 0
  {
    if tasks != [] {
      TotalWorkNonNegative(tasks[..|tasks| - 1]);
      WorkBounds(tasks[|tasks| - 1]);
    }
  }

  lemma EmittedOk(draws: Draws, s: Sim, ti: nat)
    requires SimOk(s) && ti < |s.tasks| && s.tasks[ti].nextDue.Some? && Emittable(s.tasks[ti])
    ensures var (s', _) := Emitted(draws, s, ti);
            SimOk(s') && |s'.tasks| == |s.tasks| && 0 <= TotalWork(s'.tasks) < TotalWork(s.tasks)
  {
    hide TaskOk, Work, AfterPiece, DueItem;
    var t := s.tasks[ti];
    var bound := JitterBound(t);
    var jitter := if bound == 0 then 0 else draws(s.rngPos, bound);
    PieceDone(t, jitter);
    TotalWorkOf(s.tasks, ti, AfterPiece(t, jitter));
    TotalWorkNonNegative(Emitted(draws, s, ti).0.tasks);
  }

  lemma NextEmittable(s: Sim, now: Time)
    requires SimOk(s) && NextDueTask(s.tasks, now).Some?
    ensures Emittable(s.tasks[NextDueTask(s.tasks, now).value])
  {
    OkIsEmittable(s.tasks[NextDueTask(s.tasks, now).value]);
  }

  /** Everything due at or before `now`, in emission order. */
  ghost function Polled(draws: Draws, s: Sim, now: Time): (Sim, seq<Emission>)
    requires SimOk(s)
    decreases TotalWork(s.tasks)
  {
    var next := NextDueTask(s.tasks, now);
    if next.None? then (s, [])
    else
      NextEmittable(s, now);
      EmittedOk(draws, s, next.value);
      var (s', first) := Emitted(draws, s, next.value);
      var (s'', rest) := Polled(draws, s', now);
      (s'', first + rest)
  }

  /** Polling leaves the simulator in order with nothing due. */
  lemma {:induction false} PolledOk(draws: Draws, s: Sim, now: Time)
    requires SimOk(s)
    ensures var (s', _) := Polled(draws, s, now);
            && SimOk(s') && |s'.tasks| == |s.tasks| && NothingDue(s'.tasks, now)
            && 0 <= TotalWork(s'.tasks) <= TotalWork(s.tasks)
            && (NextDueTask(s.tasks, now).Some? ==> TotalWork(s'.tasks) < TotalWork(s.tasks))
    decreases TotalWork(s.tasks)
  {
    hide SimOk, Emitted, NothingDue;
    var next := NextDueTask(s.tasks, now);
    if next.None? {
      NextDueTaskIsNext(s.tasks, now);
      WorkOfOk(s);
    } else {
      NextEmittable(s, now);
      EmittedOk(draws, s, next.value);
      PolledOk(draws, Emitted(draws, s, next.value).0, now);
    }
  }

  lemma WorkOfOk(s: Sim)
    requires SimOk(s)
    ensures TotalWork(s.tasks) >= 0
  {
    TotalWorkNonNegative(s.tasks);
  }

  /** Polling granularity does not matter: polling at an earlier instant first changes neither the
      outputs, nor their order, nor the state reached, random stream and event numbers included. */
  lemma {:induction false} GranularityIrrelevant(draws: Draws, s: Sim, t1: Time, t2: Time)
    requires SimOk(s) && t1 <= t2
    ensures SimOk(Polled(draws, s, t1).0)
    ensures var (s1, out1) := Polled(draws, s, t1);
            var (s2, out2) := Polled(draws, s1, t2);
            Polled(draws, s, t2) == (s2, out1 + out2)
    decreases TotalWork(s.tasks)
  {
    hide SimOk, Emitted, TotalWork, NothingDue, IsNext, NextDueTask;
    PolledOk(draws, s, t1);
    var next := NextDueTask(s.tasks, t1);
    if next.None? {
      var (s2, out2) := Polled(draws, s, t2);
      assert [] + out2 == out2;
    } else {
      NextDueTaskIsNext(s.tasks, t1);
      NextIsUnique(s.tasks, t2, next.value);
      NextEmittable(s, t1);
      EmittedOk(draws, s, next.value);
      var (s', first) := Emitted(draws, s, next.value);
      GranularityIrrelevant(draws, s', t1, t2);
      var (s1, rest1) := Polled(draws, s', t1);
      var (s2, rest2) := Polled(draws, s1, t2);
      assert first + (rest1 + rest2) == (first + rest1) + rest2;
    }
  }

  /** Nothing leaves before something that was due earlier. */
  ghost predicate DueInOrder(emissions: seq<Emission>) {
    forall i, j :: 0 <= i < j < |emissions| ==> emissions[i].due <= emissions[j].due
  }

  ghost predicate NoneDueBefore(tasks: seq<TaskState>, t: Time) {
    forall i :: 0 <= i < |tasks| && tasks[i].nextDue.Some? ==> t <= tasks[i].nextDue.value
  }

  lemma EmittedNotBefore(draws: Draws, s: Sim, now: Time, ti: nat)
    requires SimOk(s) && IsNext(s.tasks, now, ti) && Emittable(s.tasks[ti])
    ensures NoneDueBefore(Emitted(draws, s, ti).0.tasks, s.tasks[ti].nextDue.value)
    ensures forall e :: e in Emitted(draws, s, ti).1 ==> e.due == s.tasks[ti].nextDue.value && e.task == ti
    ensures |Emitted(draws, s, ti).1| <= 1
  {
    hide TaskOk, AfterPiece, DueItem;
    var t := s.tasks[ti];
    var bound := JitterBound(t);
    PieceDone(t, if bound == 0 then 0 else draws(s.rngPos, bound));
  }

  /** Outputs leave in non-decreasing due time, none before anything still due. */
  lemma {:induction false} PolledInOrder(draws: Draws, s: Sim, now: Time, t: Time)
    requires SimOk(s) && NoneDueBefore(s.tasks, t)
    ensures var (s', out) := Polled(draws, s, now);
            DueInOrder(out) && forall e :: e in out ==> t <= e.due <= now
    decreases TotalWork(s.tasks)
  {
    hide SimOk, Emitted, IsNext;
    var next := NextDueTask(s.tasks, now);
    if next.Some? {
      NextDueTaskIsNext(s.tasks, now);
      NextEmittable(s, now);
      EmittedOk(draws, s, next.value);
      EmittedNotBefore(draws, s, now, next.value);
      var (s', first) := Emitted(draws, s, next.value);
      var due := s.tasks[next.value].nextDue.value;
      PolledInOrder(draws, s', now, due);
      var (s'', rest) := Polled(draws, s', now);
      forall i, j | 0 <= i < j < |first + rest| ensures (first + rest)[i].due <= (first + rest)[j].due {
        if i >= |first| {
          assert rest[i - |first|].due <= rest[j - |first|].due;
        } else {
          assert first[i] in first && (first + rest)[j] == rest[j - |first|];
          assert rest[j - |first|] in rest;
        }
      }
    }
  }
}
