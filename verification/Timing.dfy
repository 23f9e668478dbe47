/** When every output of a task is due, in closed form: read off its script, the jitters drawn and the instants
    of its answers. */
module Timing {
  import opened Types
  import opened Classifier
  import opened Simulators

  // ---- the script as a list of pieces ------------------------------------------------------------------

  /** How many pieces a step has. */
  function PieceCount(step: ScriptStep): nat {
    match step
    case Progress(count, _, _, _) => if count == 0 then 1 else count
    case Log(lines, _) => |lines|
    case _ => 1
  }

  /** Milliseconds from a piece of a step to the next, not counting jitter. */
  function DelayAfter(step: ScriptStep): nat {
    match step
    case Started(_) => 0
    case Progress(_, intervalMs, _, _) => intervalMs
    case Log(_, logIntervalMs) => logIntervalMs
    case Wait(ms) => ms
    case Ask(_, _, _, _, _) => 0
    case Emit(_, _, _, delayMs) => delayMs
  }

  function JitterAfter(step: ScriptStep): nat {
    match step
    case Progress(_, _, jitterMs, _) => jitterMs
    case _ => 0
  }

  /** The step of every piece of a script, in order. */
  function Unrolled(steps: seq<ScriptStep>): seq<ScriptStep> {
    if steps == [] then []
    else
      var last := steps[|steps| - 1];
      Unrolled(steps[..|steps| - 1]) + seq(PieceCount(last), _ => last)
  }

  function Sum(xs: seq<nat>): nat {
    if xs == [] then 0 else Sum(xs[..|xs| - 1]) + xs[|xs| - 1]
  }

  function Delays(steps: seq<ScriptStep>): seq<nat> {
    seq(|steps|, i requires 0 <= i < |steps| => DelayAfter(steps[i]))
  }

  // ---- histories -----------------------------------------------------------------------------------------

  /** A task spoke a piece of its script, or the denial it owed, when it was due; or it was answered. */
  datatype Happened =
    | Spoke(task: nat, due: Time, jitter: nat, said: seq<Emission>)
    | Replied(task: nat, decision: Decision, at: Time)

  ghost predicate Next(draws: Draws, s: Sim, x: Happened, s': Sim) {
    && x.task < |s.tasks|
    && var t := s.tasks[x.task];
       match x
       case Spoke(ti, due, jitter, said) =>
         && t.nextDue == Some(due) && Emittable(t)
         && (s', said) == Emitted(draws, s, ti)
         && jitter == (if JitterBound(t) == 0 then 0 else draws(s.rngPos, JitterBound(t)))
       case Replied(ti, decision, at) =>
         && t.blocked.Some?
         && s' == s.(tasks := s.tasks[ti := Answered(t, decision, at)])
  }

  /** A simulator before its first piece, whose tasks begin at these instants. */
  ghost predicate Untouched(s: Sim, specs: seq<TaskSpec>, begins: seq<Time>) {
    && |s.tasks| == |specs| == |begins| && s.rngPos == 0
    && forall i :: 0 <= i < |specs| ==> s.tasks[i] == TaskState(specs[i], 0, 0, Some(begins[i]), None, None, false)
  }

  /** How often a task has spoken. */
  function SpokenBy(h: seq<Happened>, ti: nat): nat {
    if h == [] then 0
    else SpokenBy(h[..|h| - 1], ti) + if h[|h| - 1].Spoke? && h[|h| - 1].task == ti then 1 else 0
  }

  /** The jitters of what a task has spoken since it was last answered, or since it began. */
  function SinceAnswer(h: seq<Happened>, ti: nat): seq<nat> {
    if h == [] then []
    else
      var last := h[|h| - 1];
      if last.task != ti then SinceAnswer(h[..|h| - 1], ti)
      else if last.Spoke? then SinceAnswer(h[..|h| - 1], ti) + [last.jitter]
      else []
  }

  function LastAnswer(h: seq<Happened>, ti: nat): Option<(Decision, Time)> {
    if h == [] then None
    else
      var last := h[|h| - 1];
      if last.Replied? && last.task == ti then Some((last.decision, last.at)) else LastAnswer(h[..|h| - 1], ti)
  }

  /** How many jitters were drawn. */
  function Drawn(h: seq<Happened>, specs: seq<TaskSpec>): nat {
    if h == [] then 0
    else
      var init, last := h[..|h| - 1], h[|h| - 1];
      Drawn(init, specs) +
        if last.Spoke? && last.task < |specs| && Bound(specs[last.task], init, last.task) > 0 then 1 else 0
  }

  /** The bound of the jitter after the piece that the task speaks next. */
  function Bound(spec: TaskSpec, h: seq<Happened>, ti: nat): nat {
    var n, pieces := SpokenBy(h, ti), Unrolled(spec.steps);
    if OwesDenial(h, ti) || n >= |pieces| then 0 else JitterAfter(pieces[n])
  }

  /** The task was denied and has not spoken since. */
  predicate OwesDenial(h: seq<Happened>, ti: nat) {
    LastAnswer(h, ti).Some? && LastAnswer(h, ti).value.0 == Deny && SinceAnswer(h, ti) == []
  }

  /** When the piece that the task speaks next is due: so many milliseconds after it began or was last
      answered as the delays and jitters of its pieces since come to. */
  function DueNext(spec: TaskSpec, begin: Time, h: seq<Happened>, ti: nat): Time {
    var n, since, pieces := SpokenBy(h, ti), SinceAnswer(h, ti), Unrolled(spec.steps);
    var origin := match LastAnswer(h, ti) case Some(answer) => answer.1 case None => begin;
    if OwesDenial(h, ti) || !(|since| <= n <= |pieces|) then origin
    else origin + 1_000_000 * (Sum(Delays(pieces[n - |since|..n])) + Sum(since))
  }

  // ---- the invariant -------------------------------------------------------------------------------------

  /** Where a task is in its list of pieces, and when it is due. */
  ghost predicate OnTime(t: TaskState, spec: TaskSpec, begin: Time, h: seq<Happened>, ti: nat) {
    && t.spec == spec
    && (t.pendingDeny.Some? <==> !t.finished && OwesDenial(h, ti))
    && (t.nextDue.Some? ==> t.nextDue.value == DueNext(spec, begin, h, ti))
    && (t.nextDue.Some? && t.pendingDeny.None? ==> t.step <= |spec.steps| && |SinceAnswer(h, ti)| <= SpokenBy(h, ti))
    && ((t.nextDue.Some? && t.pendingDeny.None?) || t.blocked.Some? ==>
          t.step <= |spec.steps| && SpokenBy(h, ti) == |Unrolled(spec.steps[..t.step])| + t.piece)
  }

  lemma LastHappened(h: seq<Happened>, x: Happened, ti: nat)
    ensures SpokenBy(h + [x], ti) == SpokenBy(h, ti) + (if x.Spoke? && x.task == ti then 1 else 0)
    ensures SinceAnswer(h + [x], ti) ==
              if x.task != ti then SinceAnswer(h, ti) else if x.Spoke? then SinceAnswer(h, ti) + [x.jitter] else []
    ensures LastAnswer(h + [x], ti) ==
              if x.Replied? && x.task == ti then Some((x.decision, x.at)) else LastAnswer(h, ti)
  {
    assert (h + [x])[..|h|] == h;
  }

  lemma {:induction false} UnrolledPrefix(steps: seq<ScriptStep>, k: nat)
    requires k <= |steps|
    ensures Unrolled(steps[..k]) <= Unrolled(steps)
    decreases |steps|
  {
    hide PieceCount;
    if k == |steps| {
      assert steps[..k] == steps;
    } else {
      var init := steps[..|steps| - 1];
      assert init[..k] == steps[..k];
      UnrolledPrefix(init, k);
    }
  }

  /** The pieces of one step stand together. */
  lemma UnrolledStep(steps: seq<ScriptStep>, k: nat, p: nat)
    requires k < |steps| && p < PieceCount(steps[k])
    ensures |Unrolled(steps[..k + 1])| == |Unrolled(steps[..k])| + PieceCount(steps[k])
    ensures |Unrolled(steps[..k])| + p < |Unrolled(steps)|
    ensures Unrolled(steps)[|Unrolled(steps[..k])| + p] == steps[k]
  {
    hide PieceCount;
    assert steps[..k + 1][..k] == steps[..k];
    UnrolledPrefix(steps, k + 1);
    assert Unrolled(steps[..k + 1])[|Unrolled(steps[..k])| + p] == steps[k];
  }

  lemma SumMore(xs: seq<nat>, x: nat)
    ensures Sum(xs + [x]) == Sum(xs) + x
  {
    assert (xs + [x])[..|xs|] == xs;
  }

  /** Each piece moves the next one on by its own delay and jitter. */
  lemma DueMoves(spec: TaskSpec, begin: Time, h: seq<Happened>, ti: nat, x: Happened)
    requires x.Spoke? && x.task == ti && !OwesDenial(h, ti)
    requires |SinceAnswer(h, ti)| <= SpokenBy(h, ti) < |Unrolled(spec.steps)|
    ensures !OwesDenial(h + [x], ti)
    ensures DueNext(spec, begin, h + [x], ti) ==
            DueNext(spec, begin, h, ti) + 1_000_000 * (DelayAfter(Unrolled(spec.steps)[SpokenBy(h, ti)]) + x.jitter)
  {
    hide SpokenBy, SinceAnswer, LastAnswer, Unrolled, DelayAfter, Sum;
    LastHappened(h, x, ti);
    var n, since, pieces := SpokenBy(h, ti), SinceAnswer(h, ti), Unrolled(spec.steps);
    var passed := pieces[n - |since|..n];
    assert pieces[n - |since|..n + 1] == passed + [pieces[n]];
    assert Delays(passed + [pieces[n]]) == Delays(passed) + [DelayAfter(pieces[n])];
    SumMore(Delays(passed), DelayAfter(pieces[n]));
    SumMore(since, x.jitter);
  }

  /** Where a task stands, and what piece it speaks next. */
  lemma Standing(t: TaskState, spec: TaskSpec, begin: Time, h: seq<Happened>, ti: nat)
    requires TaskOk(t) && OnTime(t, spec, begin, h, ti) && t.nextDue.Some?
    ensures JitterBound(t) == Bound(spec, h, ti) && !t.finished && t.nextDue.value == DueNext(spec, begin, h, ti)
    ensures DueItem(t).Some? <==>
            OwesDenial(h, ti) || (SpokenBy(h, ti) < |Unrolled(spec.steps)| && !Unrolled(spec.steps)[SpokenBy(h, ti)].Wait?)
    ensures t.pendingDeny.None? ==> |SinceAnswer(h, ti)| <= SpokenBy(h, ti) <= |Unrolled(spec.steps)|
    ensures AtStep(t) ==>
              && SpokenBy(h, ti) < |Unrolled(spec.steps)|
              && Unrolled(spec.steps)[SpokenBy(h, ti)] == spec.steps[t.step]
              && t.piece < PieceCount(spec.steps[t.step])
              && |Unrolled(spec.steps[..t.step + 1])| == |Unrolled(spec.steps[..t.step])| + PieceCount(spec.steps[t.step])
  {
    hide SpokenBy, SinceAnswer, LastAnswer, Unrolled, DueNext, OwesDenial;
    if AtStep(t) {
      UnrolledStep(spec.steps, t.step, t.piece);
    } else if t.pendingDeny.None? {
      assert spec.steps[..t.step] == spec.steps;
    }
  }

  /** One piece of a step moves its task on by one piece or to the next step, and by the delay and jitter of
      the step. */
  lemma Moved(t: TaskState, jitter: nat)
    requires AtStep(t) && t.nextDue.Some? && t.blocked.None? && t.piece < PieceCount(t.spec.steps[t.step])
    requires (JitterBound(t) == 0 ==> jitter == 0) && (t.piece == 0 || !t.spec.steps[t.step].Ask?)
    ensures var u, step := AfterPiece(t, jitter), t.spec.steps[t.step];
            && u.spec == t.spec && u.pendingDeny.None?
            && (u.nextDue.Some? ==> u.nextDue.value == t.nextDue.value + 1_000_000 * (DelayAfter(step) + jitter))
            && (u.nextDue.Some? || u.blocked.Some? ==>
                  || (u.step == t.step && u.piece == t.piece + 1)
                  || (u.step == t.step + 1 && u.piece == 0 && t.piece + 1 == PieceCount(step)))
  {
    hide IsTerminalKind;
  }

  lemma SpokeOnTime(t: TaskState, spec: TaskSpec, begin: Time, h: seq<Happened>, ti: nat, x: Happened)
    requires TaskOk(t) && OnTime(t, spec, begin, h, ti) && t.nextDue.Some?
    requires x.Spoke? && x.task == ti && (JitterBound(t) == 0 ==> x.jitter == 0)
    ensures OnTime(AfterPiece(t, x.jitter), spec, begin, h + [x], ti)
  {
    if AtStep(t) {
      SpokeAtStep(t, spec, begin, h, ti, x);
    } else {
      hide SpokenBy, SinceAnswer, LastAnswer, Unrolled, DueNext, IsTerminalKind;
      LastHappened(h, x, ti);
    }
  }

  lemma SpokeAtStep(t: TaskState, spec: TaskSpec, begin: Time, h: seq<Happened>, ti: nat, x: Happened)
    requires TaskOk(t) && OnTime(t, spec, begin, h, ti) && t.nextDue.Some? && AtStep(t)
    requires x.Spoke? && x.task == ti && (JitterBound(t) == 0 ==> x.jitter == 0)
    ensures OnTime(AfterPiece(t, x.jitter), spec, begin, h + [x], ti)
  {
    hide SpokenBy, SinceAnswer, LastAnswer, Unrolled, DueNext, AfterPiece, JitterBound, PieceCount, DelayAfter, OwesDenial;
    Standing(t, spec, begin, h, ti);
    LastHappened(h, x, ti);
    DueMoves(spec, begin, h, ti, x);
    Moved(t, x.jitter);
  }

  lemma RepliedOnTime(t: TaskState, spec: TaskSpec, begin: Time, h: seq<Happened>, ti: nat, x: Happened)
    requires TaskOk(t) && OnTime(t, spec, begin, h, ti) && t.blocked.Some?
    requires x.Replied? && x.task == ti
    ensures OnTime(Answered(t, x.decision, x.at), spec, begin, h + [x], ti)
  {
    hide SpokenBy, SinceAnswer, LastAnswer;
    LastHappened(h, x, ti);
    UnrolledPrefix(spec.steps, t.step);
    var n := SpokenBy(h + [x], ti);
    assert Unrolled(spec.steps)[n..n] == [];
  }

  lemma OtherOnTime(t: TaskState, spec: TaskSpec, begin: Time, h: seq<Happened>, ti: nat, x: Happened)
    requires OnTime(t, spec, begin, h, ti) && x.task != ti
    ensures OnTime(t, spec, begin, h + [x], ti)
  {
    hide SpokenBy, SinceAnswer, LastAnswer, Unrolled;
    LastHappened(h, x, ti);
  }

  // ---- runs ----------------------------------------------------------------------------------------------

  ghost predicate AllOnTime(s: Sim, specs: seq<TaskSpec>, begins: seq<Time>, h: seq<Happened>) {
    && SimOk(s) && |s.tasks| == |specs| == |begins| && s.rngPos == Drawn(h, specs)
    && forall i :: 0 <= i < |specs| ==> OnTime(s.tasks[i], specs[i], begins[i], h, i)
  }

  /** What a task speaks after the history `h` leaves when the script, the jitters and the last answer say, with
      the jitter that the stream holds at the number of jitters drawn; only a wait says nothing. */
  ghost predicate Timely(draws: Draws, specs: seq<TaskSpec>, begins: seq<Time>, h: seq<Happened>, x: Happened) {
    && x.task < |specs| == |begins|
    && (x.Spoke? ==>
          var spec, n := specs[x.task], SpokenBy(h, x.task);
          var bound, pieces := Bound(spec, h, x.task), Unrolled(spec.steps);
          && x.due == DueNext(spec, begins[x.task], h, x.task)
          && x.jitter == (if bound == 0 then 0 else draws(Drawn(h, specs), bound))
          && (x.said != [] <==> OwesDenial(h, x.task) || (n < |pieces| && !pieces[n].Wait?))
          && |x.said| <= 1 && (x.said != [] ==> x.said[0].task == x.task && x.said[0].due == x.due))
  }

  ghost predicate AllTimely(draws: Draws, specs: seq<TaskSpec>, begins: seq<Time>, h: seq<Happened>) {
    forall j :: 0 <= j < |h| ==> Timely(draws, specs, begins, h[..j], h[j])
  }

  lemma OneMore(draws: Draws, specs: seq<TaskSpec>, begins: seq<Time>, h: seq<Happened>, x: Happened)
    requires AllTimely(draws, specs, begins, h) && Timely(draws, specs, begins, h, x)
    ensures AllTimely(draws, specs, begins, h + [x])
  {
    hide Timely;
    forall j | 0 <= j < |h + [x]| ensures Timely(draws, specs, begins, (h + [x])[..j], (h + [x])[j]) {
      if j < |h| {
        assert (h + [x])[..j] == h[..j];
      } else {
        assert (h + [x])[..j] == h;
      }
    }
  }

  lemma UntouchedOnTime(s: Sim, specs: seq<TaskSpec>, begins: seq<Time>)
    requires SimOk(s) && Untouched(s, specs, begins)
    ensures AllOnTime(s, specs, begins, [])
  {
    hide SimOk;
    assert Drawn([], specs) == 0;
    forall i | 0 <= i < |specs| ensures OnTime(s.tasks[i], specs[i], begins[i], [], i) {
      BeginOnTime(specs[i], begins[i], i);
    }
  }

  lemma BeginOnTime(spec: TaskSpec, begin: Time, ti: nat)
    ensures OnTime(TaskState(spec, 0, 0, Some(begin), None, None, false), spec, begin, [], ti)
  {
    assert Unrolled(spec.steps)[0..0] == [];
  }

  lemma DrawnMore(h: seq<Happened>, x: Happened, specs: seq<TaskSpec>)
    ensures Drawn(h + [x], specs) ==
            Drawn(h, specs) + if x.Spoke? && x.task < |specs| && Bound(specs[x.task], h, x.task) > 0 then 1 else 0
  {
    hide Bound;
    assert (h + [x])[..|h|] == h;
  }

  lemma OneOk(s: Sim, ti: nat)
    requires SimOk(s) && ti < |s.tasks|
    ensures TaskOk(s.tasks[ti])
  {
    hide TaskOk;
  }

  lemma AnswerOk(s: Sim, ti: nat, decision: Decision, at: Time)
    requires SimOk(s) && ti < |s.tasks| && s.tasks[ti].blocked.Some?
    ensures SimOk(s.(tasks := s.tasks[ti := Answered(s.tasks[ti], decision, at)]))
  {
    hide TaskOk, Work, Answered;
    AnswerDone(s.tasks[ti], decision, at);
  }

  lemma StepOnTime(draws: Draws, s: Sim, x: Happened, s': Sim, specs: seq<TaskSpec>, begins: seq<Time>, h: seq<Happened>)
    requires AllOnTime(s, specs, begins, h) && Next(draws, s, x, s')
    ensures AllOnTime(s', specs, begins, h + [x]) && Timely(draws, specs, begins, h, x)
  {
    hide SimOk, TaskOk, OnTime, Drawn, Bound, DueNext, AfterPiece, Answered, JitterBound, DueItem, SpokenBy, OwesDenial, Unrolled;
    var ti := x.task;
    OneOk(s, ti);
    DrawnMore(h, x, specs);
    match x {
      case Spoke(_, due, jitter, said) =>
        EmittedOk(draws, s, ti);
        Standing(s.tasks[ti], specs[ti], begins[ti], h, ti);
        SpokeOnTime(s.tasks[ti], specs[ti], begins[ti], h, ti, x);
      case Replied(_, decision, at) =>
        AnswerOk(s, ti, decision, at);
        RepliedOnTime(s.tasks[ti], specs[ti], begins[ti], h, ti, x);
    }
    forall i | 0 <= i < |specs| ensures OnTime(s'.tasks[i], specs[i], begins[i], h + [x], i) {
      if i != ti {
        OtherOnTime(s.tasks[i], specs[i], begins[i], h, i, x);
      }
    }
  }

  function SaidIn(h: seq<Happened>): seq<Emission> {
    if h == [] then [] else SaidIn(h[..|h| - 1]) + if h[|h| - 1].Spoke? then h[|h| - 1].said else []
  }

  lemma {:induction false} SaidJoin(a: seq<Happened>, b: seq<Happened>)
    ensures SaidIn(a + b) == SaidIn(a) + SaidIn(b)
  {
    if b == [] {
      assert a + b == a;
    } else {
      assert (a + b)[..|a + b| - 1] == a + b[..|b| - 1];
      SaidJoin(a, b[..|b| - 1]);
    }
  }

  /** A poll, or a decision delivered to a task that waits for one. */
  datatype Deed = Polling(now: Time) | Answering(task: nat, decision: Decision, at: Time)

  ghost predicate Does(draws: Draws, s: Sim, deed: Deed, s': Sim, out: seq<Emission>) {
    match deed
    case Polling(now) => SimOk(s) && (s', out) == Polled(draws, s, now)
    case Answering(ti, decision, at) =>
      ti < |s.tasks| && s.tasks[ti].blocked.Some? && out == [] &&
      s' == s.(tasks := s.tasks[ti := Answered(s.tasks[ti], decision, at)])
  }

  /** What a deed adds to the history: a poll the pieces that were due, with what they said, and an answer itself. */
  ghost predicate Tells(deed: Deed, out: seq<Emission>, h: seq<Happened>) {
    match deed
    case Polling(now) => SaidIn(h) == out && forall x :: x in h ==> x.Spoke? && x.due <= now
    case Answering(ti, decision, at) => h == [Replied(ti, decision, at)]
  }

  lemma {:induction false} PollOnTime(draws: Draws, s: Sim, now: Time, specs: seq<TaskSpec>, begins: seq<Time>, h: seq<Happened>)
    returns (more: seq<Happened>)
    requires AllOnTime(s, specs, begins, h) && AllTimely(draws, specs, begins, h)
    ensures Tells(Polling(now), Polled(draws, s, now).1, more)
    ensures AllOnTime(Polled(draws, s, now).0, specs, begins, h + more) && AllTimely(draws, specs, begins, h + more)
    decreases TotalWork(s.tasks)
  {
    hide OnTime, Emitted, SimOk, AllTimely, Timely, Drawn, NextDueTask, TotalWork;
    var next := NextDueTask(s.tasks, now);
    if next.None? {
      more := [];
      assert h + more == h;
    } else {
      var ti := next.value;
      NextEmittable(s, now);
      EmittedOk(draws, s, ti);
      var (s', said) := Emitted(draws, s, ti);
      var x := SpokenPiece(draws, s, ti);
      StepOnTime(draws, s, x, s', specs, begins, h);
      OneMore(draws, specs, begins, h, x);
      var rest := PollOnTime(draws, s', now, specs, begins, h + [x]);
      more := [x] + rest;
      assert h + more == h + [x] + rest;
      SaidJoin([x], rest);
      assert SaidIn([x]) == said;
    }
  }

  lemma SpokenPiece(draws: Draws, s: Sim, ti: nat) returns (x: Happened)
    requires ti < |s.tasks| && s.tasks[ti].nextDue.Some? && Emittable(s.tasks[ti])
    ensures Next(draws, s, x, Emitted(draws, s, ti).0)
    ensures x.Spoke? && x.task == ti && x.due == s.tasks[ti].nextDue.value && x.said == Emitted(draws, s, ti).1
  {
    hide AfterPiece, DueItem, Emittable;
    var t := s.tasks[ti];
    var bound := JitterBound(t);
    x := Spoke(ti, t.nextDue.value, if bound == 0 then 0 else draws(s.rngPos, bound), Emitted(draws, s, ti).1);
  }

  function Flat(hs: seq<seq<Happened>>): seq<Happened> {
    if hs == [] then [] else Flat(hs[..|hs| - 1]) + hs[|hs| - 1]
  }

  ghost predicate Run(draws: Draws, marks: seq<Sim>, deeds: seq<Deed>, outs: seq<seq<Emission>>) {
    && |marks| == |deeds| + 1 && |outs| == |deeds|
    && forall k :: 0 <= k < |deeds| ==> Does(draws, marks[k], deeds[k], marks[k + 1], outs[k])
  }

  /** Over every run of polls and answers, each output is due so many milliseconds after its task began or was
      last answered as the delays and the drawn jitters of the pieces since come to. */
  lemma {:induction false} OutputsOnTime(draws: Draws, marks: seq<Sim>, deeds: seq<Deed>, outs: seq<seq<Emission>>,
                                         specs: seq<TaskSpec>, begins: seq<Time>)
    returns (told: seq<seq<Happened>>)
    requires Run(draws, marks, deeds, outs) && SimOk(marks[0]) && Untouched(marks[0], specs, begins)
    ensures |told| == |deeds| && forall k :: 0 <= k < |deeds| ==> Tells(deeds[k], outs[k], told[k])
    ensures AllTimely(draws, specs, begins, Flat(told))
    ensures AllOnTime(marks[|deeds|], specs, begins, Flat(told))
    decreases |deeds|
  {
    hide SimOk, Timely, AllTimely, AllOnTime, Tells, Untouched, Polled, Answered;
    if deeds == [] {
      UntouchedOnTime(marks[0], specs, begins);
      told := [];
      assert AllTimely(draws, specs, begins, []) by { NothingTimely(draws, specs, begins); }
    } else {
      var n := |deeds| - 1;
      var init := OutputsOnTime(draws, marks[..n + 1], deeds[..n], outs[..n], specs, begins);
      var last := DeedOnTime(draws, marks[n], deeds[n], marks[n + 1], outs[n], specs, begins, Flat(init));
      told := init + [last];
      assert told[..n] == init;
    }
  }

  lemma NothingTimely(draws: Draws, specs: seq<TaskSpec>, begins: seq<Time>)
    ensures AllTimely(draws, specs, begins, [])
  {
  }

  lemma DeedOnTime(draws: Draws, s: Sim, deed: Deed, s': Sim, out: seq<Emission>,
                   specs: seq<TaskSpec>, begins: seq<Time>, h: seq<Happened>)
    returns (more: seq<Happened>)
    requires AllOnTime(s, specs, begins, h) && AllTimely(draws, specs, begins, h) && Does(draws, s, deed, s', out)
    ensures Tells(deed, out, more)
    ensures AllOnTime(s', specs, begins, h + more) && AllTimely(draws, specs, begins, h + more)
  {
    hide SimOk, Timely, AllTimely, OnTime, Drawn, Polled, Answered;
    match deed {
      case Polling(now) =>
        more := PollOnTime(draws, s, now, specs, begins, h);
      case Answering(ti, decision, at) =>
        var x := Replied(ti, decision, at);
        more := [x];
        StepOnTime(draws, s, x, s', specs, begins, h);
        OneMore(draws, specs, begins, h, x);
    }
  }
}
