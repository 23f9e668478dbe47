/** When the simulator can index past the lines of a log step: exactly when a script has a log step without
    lines, which validation does not look at. */
module EmptyLogs {
  import opened Types
  import opened Simulators
  import opened Scripts
  import opened Scenarios

  /** A task after `n` moves in which everything due is emitted and every request approved. */
  function Approved(spec: TaskSpec, start: Time, n: nat): TaskState {
    if n == 0 then TaskState(spec, 0, 0, Some(start), None, None, false)
    else
      var t := Approved(spec, start, n - 1);
      if t.blocked.Some? then Answered(t, Approve, start)
      else if t.nextDue.Some? then AfterPiece(t, 0)
      else t
  }

  ghost predicate NeverStuck(spec: TaskSpec, start: Time) {
    forall n: nat :: CanGoOn(Approved(spec, start, n))
  }

  predicate CanGoOn(t: TaskState) {
    t.nextDue.Some? ==> Emittable(t)
  }

  /** Due at piece `p` of step `k`. */
  predicate At(t: TaskState, spec: TaskSpec, k: nat, p: nat) {
    t.spec == spec && t.step == k && t.piece == p && t.nextDue.Some? && t.blocked.None? && t.pendingDeny.None? && !t.finished
  }

  lemma {:induction false} ApprovedOk(spec: TaskSpec, start: Time, n: nat)
    requires LogsNonEmpty(spec)
    ensures TaskOk(Approved(spec, start, n))
  {
    hide AfterPiece, Answered;
    if n == 0 {
    } else {
      ApprovedOk(spec, start, n - 1);
      var t := Approved(spec, start, n - 1);
      if t.blocked.Some? {
        AnswerDone(t, Approve, start);
      } else if t.nextDue.Some? {
        PieceDone(t, 0);
      }
    }
  }

  /** The remaining pieces of a step with several. */
  lemma {:induction false} PiecesPass(spec: TaskSpec, start: Time, n: nat, k: nat, p: nat) returns (m: nat)
    requires At(Approved(spec, start, n), spec, k, p) && k + 1 < |spec.steps|
    requires spec.steps[k].Progress? || spec.steps[k].Log?
    ensures At(Approved(spec, start, m), spec, k + 1, 0)
    decreases var step := spec.steps[k]; (if step.Progress? then step.count else |step.lines|) - p
  {
    var size := if spec.steps[k].Progress? then spec.steps[k].count else |spec.steps[k].lines|;
    m := n + 1;
    if p + 1 < size {
      m := PiecesPass(spec, start, n + 1, k, p + 1);
    }
  }

  lemma AskPasses(spec: TaskSpec, start: Time, n: nat, k: nat)
    requires At(Approved(spec, start, n), spec, k, 0) && k + 1 < |spec.steps| && spec.steps[k].Ask?
    ensures At(Approved(spec, start, n + 2), spec, k + 1, 0)
  {
    hide IsTerminalKind;
    var asked := Approved(spec, start, n + 1);
    assert asked.blocked.Some? && asked.step == k + 1 && asked.piece == 0 && !asked.finished;
  }

  lemma OnePieceStep(t: TaskState, spec: TaskSpec, k: nat)
    requires At(t, spec, k, 0) && k + 1 < |spec.steps| && NothingAfterTerminal(spec)
    requires spec.steps[k].Started? || spec.steps[k].Wait? || spec.steps[k].Emit?
    ensures At(AfterPiece(t, 0), spec, k + 1, 0)
  {
    hide IsTerminalKind;
  }

  lemma StepPasses(spec: TaskSpec, start: Time, n: nat, k: nat) returns (m: nat)
    requires At(Approved(spec, start, n), spec, k, 0) && k + 1 < |spec.steps| && NothingAfterTerminal(spec)
    ensures At(Approved(spec, start, m), spec, k + 1, 0)
  {
    hide AfterPiece, Answered, NothingAfterTerminal;
    if spec.steps[k].Progress? || spec.steps[k].Log? {
      m := PiecesPass(spec, start, n, k, 0);
    } else if spec.steps[k].Ask? {
      AskPasses(spec, start, n, k);
      m := n + 2;
    } else {
      OnePieceStep(Approved(spec, start, n), spec, k);
      m := n + 1;
    }
  }

  lemma {:induction false} Reaches(spec: TaskSpec, start: Time, k: nat) returns (n: nat)
    requires k < |spec.steps| && NothingAfterTerminal(spec)
    ensures At(Approved(spec, start, n), spec, k, 0)
  {
    n := 0;
    if k > 0 {
      n := Reaches(spec, start, k - 1);
      n := StepPasses(spec, start, n, k - 1);
    }
  }

  /** For every validated task: approving everything never gets the simulator stuck if and only if each
      log step has a line. */
  lemma StuckExactlyOnEmptyLog(sc: Scenario, i: nat, start: Time)
    requires ValidScenario(sc) && i < |sc.tasks|
    ensures NeverStuck(sc.tasks[i], start) <==> LogsNonEmpty(sc.tasks[i])
  {
    hide ValidScenario, Approved, NothingAfterTerminal;
    var spec := sc.tasks[i];
    ValidEndsAtTerminal(sc, i);
    if LogsNonEmpty(spec) {
      forall n: nat ensures CanGoOn(Approved(spec, start, n)) {
        ApprovedOk(spec, start, n);
        OkIsEmittable(Approved(spec, start, n));
      }
    } else {
      var k :| 0 <= k < |spec.steps| && spec.steps[k].Log? && spec.steps[k].lines == [];
      var n := Reaches(spec, start, k);
      assert !CanGoOn(Approved(spec, start, n));
    }
  }
}
