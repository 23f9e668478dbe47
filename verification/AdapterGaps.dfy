/** What the adapter leaves unsaid: when the end of the terminal goes unreported, and when a dialog on screen
    is not asked about. */
module AdapterGaps {
  import opened Types
  import opened Questions
  import opened InputEncoder
  import opened Adapters
  import opened AdapterRuns

  // ---- exits -----------------------------------------------------------------------------------------

  /** The response passes every check, so that only the terminal can still refuse it. */
  predicate Sendable(s: Session, taskId: TaskId, reply: Reply) {
    && taskId == reply.taskId && reply.alive && s.pending.Some?
    && (reply.requestSeq.Some? ==> reply.requestSeq.value == s.pending.value.agentSeq)
    && s.pending.value.state.SameRequest(reply.live) && EncodeForState(reply.live, reply.response).Ok?
  }

  /** The text that was held back is due, and only the terminal can still refuse it. */
  predicate Typable(s: Session, detected: AgentState, now: Time) {
    && EntryShown(s, detected) && now <= s.writeIn.value.deadline
    && detected.question == s.writeIn.value.question && ValidText(s.writeIn.value.text)
  }

  /** The state is the one that the pending request is about. */
  predicate AsksAbout(s: Session, state: AgentState) {
    s.pending.Some? && s.pending.value.state.SameRequest(state)
  }

  predicate GraceOver(s: Session, now: Time) {
    s.lastConsumed.Some? && now >= s.lastConsumed.value.graceUntil
  }

  predicate Changes(s: Session, seen: Option<Sight>) {
    seen.Some? && seen.value.state != s.current
  }

  /** A response or a held-back text that the terminal refuses; a new screen with a fatal error; or a poll
      that finds the terminal gone. A refused text does not count if its dialog is asked about at once. */
  predicate Exits(s: Session, taskId: TaskId, input: AdapterRuns.Input) {
    match input
    case Answer(reply) => Sendable(s, taskId, reply) && !reply.accepted
    case PollAt(seen, now, accepted, alive) =>
      || !alive
      || (Changes(s, seen) && seen.value.state.FatalError?)
      || (Changes(s, seen) && Typable(s, seen.value.state, now) && !accepted && !(s.pending.None? && GraceOver(s, now)))
    case Prompt(_, _) => false
  }

  lemma LookExits(t: Trace, seen: Sight, now: Time, accepted: bool)
    requires !t.s.lifecycle.Exited?
    ensures var u := Transition(t, seen, now, accepted);
            u.s.lifecycle.Exited? <==> seen.state.FatalError? || (Typable(t.s, seen.state, now) && !accepted)
  {
    hide ValidText, TypeText;
    if EntryShown(t.s, seen.state) {
      assert TypeText(t, seen.state, now).s.lifecycle.Engaged? by { TypingEngages(t, seen.state, now); }
    }
  }

  lemma TypingEngages(t: Trace, detected: AgentState, now: Time)
    requires EntryShown(t.s, detected)
    ensures TypeText(t, detected, now).s.lifecycle.Engaged?
  {
    hide Retype, BytesOf;
  }

  lemma RefusedEntry(t: Trace, seen: Sight, now: Time)
    requires Typable(t.s, seen.state, now)
    ensures Transition(t, seen, now, false) == t.(s := t.s.(writeIn := None, lifecycle := Exited))
  {
    hide ValidText;
  }

  lemma StartedExits(t: Trace)
    requires !t.s.lifecycle.Exited?
    ensures !Started(t).s.lifecycle.Exited?
    ensures var s := Started(t).s; s == t.s.(lifecycle := s.lifecycle, buffered := [], agentSeq := s.agentSeq)
  {
  }

  lemma ReopenedExits(t: Trace, now: Time)
    ensures Reopened(t, now).s.lifecycle.Exited? <==>
              t.s.lifecycle.Exited? && !(t.s.pending.None? && t.s.writeIn.None? && t.s.current.IsBlocking() && GraceOver(t.s, now))
  {
  }

  lemma CaughtExits(t: Trace, seen: Option<Sight>, now: Time, accepted: bool)
    requires !t.s.lifecycle.Exited?
    ensures Caught(t, seen, now, accepted).s.lifecycle.Exited? <==> Exits(t.s, "", PollAt(seen, now, accepted, true))
  {
    hide Transition, Started, Reopened, ValidText;
    StartedExits(t);
    var started := Started(t);
    var looked := Looked(started, seen, now, accepted);
    ReopenedExits(looked.(s := Lapsed(looked.s, now)), now);
    if Changes(t.s, seen) {
      var here := started.(s := started.s.(current := seen.value.state));
      LookExits(here, seen.value, now, accepted);
      if seen.value.state.FatalError? {
        FatalStays(here, seen.value, now, accepted);
      } else if Typable(here.s, seen.value.state, now) && !accepted {
        RefusedEntry(here, seen.value, now);
      }
    }
  }

  lemma FatalStays(t: Trace, seen: Sight, now: Time, accepted: bool)
    requires seen.state.FatalError?
    ensures Transition(t, seen, now, accepted).s.current == t.s.current
  {
  }

  /** A step brings the lifecycle to its end exactly in these cases. */
  lemma ExitsExactly(t: Trace, taskId: TaskId, input: AdapterRuns.Input)
    requires !t.s.lifecycle.Exited?
    ensures Step(t, taskId, input).s.lifecycle.Exited? <==> Exits(t.s, taskId, input)
  {
    hide EncodeForState, Caught, PromptBytes, BytesOf, Typable, DeliveredDetails;
    match input
    case PollAt(seen, now, accepted, alive) => CaughtExits(t, seen, now, accepted);
    case Answer(_) =>
    case Prompt(_, _) =>
  }

  /** What moves an ended adapter on: an answer or a prompt that the terminal takes after all; or, if a poll
      finds it alive, a new screen that shows work, its end or an idle prompt, a held-back text that is typed,
      or a dialog that is asked about. */
  predicate Revives(s: Session, taskId: TaskId, input: AdapterRuns.Input) {
    match input
    case Answer(reply) => Sendable(s, taskId, reply) && reply.accepted
    case Prompt(_, accepted) => accepted
    case PollAt(seen, now, accepted, alive) =>
      alive &&
      if Changes(s, seen) then
        var state := seen.value.state;
        || state.Busy? || state.Done? || state.IdlePrompt?
        || (state.IsBlocking() &&
              if Typable(s, state, now) then accepted || (s.pending.None? && GraceOver(s, now))
              else AsksAbout(s, state) || !Lingering(s, state, now))
      else s.current.IsBlocking() && s.pending.None? && Lapsed(s, now).writeIn.None? && GraceOver(s, now)
  }

  lemma LookRevives(t: Trace, seen: Sight, now: Time, accepted: bool)
    requires t.s.lifecycle.Exited? && seen.state == t.s.current
    ensures var u, state := Transition(t, seen, now, accepted), seen.state;
            && u.s.current == state
            && (u.s.lifecycle.Exited? <==>
                  && !(state.Busy? || state.Done? || state.IdlePrompt?)
                  && (state.IsBlocking() ==>
                        if Typable(t.s, state, now) then !accepted else !AsksAbout(t.s, state) && Lingering(t.s, state, now)))
            && (state.IsBlocking() && u.s.lifecycle.Exited? ==>
                  if Typable(t.s, state, now) then u == t.(s := t.s.(writeIn := None))
                  else !GraceOver(u.s, now))
  {
    hide CompletedWriteIn, Typable, OpenedRequest, Raise;
    if seen.state.IsBlocking() {
      CompletedRevives(t, seen.state, now, accepted);
      OpenedRevives(CompletedWriteIn(t, seen.state, now, accepted).1, seen.state, now);
    } else {
      RaiseKeepsEnd(t.(s := WithExpired(t.s)), seen);
    }
  }

  lemma RaiseKeepsEnd(t: Trace, seen: Sight)
    requires t.s.lifecycle.Exited? && !seen.state.IsBlocking()
    ensures var u := Unblocked(t, seen);
            && u.s.current == t.s.current
            && (u.s.lifecycle.Exited? <==> !(seen.state.Busy? || seen.state.Done? || seen.state.IdlePrompt?))
  {
  }

  lemma CompletedRevives(t: Trace, detected: AgentState, now: Time, accepted: bool)
    requires t.s.lifecycle.Exited?
    ensures var (handled, u) := CompletedWriteIn(t, detected, now, accepted);
            && handled == Typable(t.s, detected, now)
            && u.s.current == t.s.current && u.s.pending == t.s.pending
            && (handled && !accepted ==> u == t.(s := t.s.(writeIn := None)))
            && (handled && accepted ==> u.s.lifecycle.Engaged?)
            && (!handled ==> u.s.lifecycle.Exited? && u.s.lastConsumed == t.s.lastConsumed)
  {
    hide ValidText, Retype, BytesOf;
  }

  lemma OpenedRevives(t: Trace, detected: AgentState, now: Time)
    requires t.s.lifecycle.Exited? || t.s.lifecycle.Engaged?
    ensures var u := OpenedRequest(t, detected, now);
            && u.s.current == t.s.current
            && (if AsksAbout(t.s, detected) || !Lingering(t.s, detected, now) then u.s.lifecycle.BlockedOnPermission?
                else u == t && !GraceOver(u.s, now))
  {
    hide Announce;
    AnnouncingBlocks(t, detected, now);
  }

  lemma AnnouncingBlocks(t: Trace, detected: AgentState, now: Time)
    ensures Announce(t, detected, now).s.lifecycle.BlockedOnPermission? && Announce(t, detected, now).s.current == t.s.current
  {
  }

  lemma StartedEnded(t: Trace)
    requires t.s.lifecycle.Exited?
    ensures Started(t).s == t.s.(buffered := [])
  {
  }

  lemma CaughtRevives(t: Trace, seen: Option<Sight>, now: Time, accepted: bool)
    requires t.s.lifecycle.Exited?
    ensures Caught(t, seen, now, accepted).s.lifecycle.Exited? <==> !Revives(t.s, "", PollAt(seen, now, accepted, true))
  {
    hide Transition, Started, Reopened, ValidText, Typable;
    StartedEnded(t);
    var started := Started(t);
    var looked := Looked(started, seen, now, accepted);
    ReopenedExits(looked.(s := Lapsed(looked.s, now)), now);
    if Changes(t.s, seen) {
      var here := started.(s := started.s.(current := seen.value.state));
      SameTypable(t.s, here.s, seen.value.state, now);
      LookRevives(here, seen.value, now, accepted);
    }
  }

  lemma SameTypable(s: Session, u: Session, detected: AgentState, now: Time)
    requires u.writeIn == s.writeIn
    ensures Typable(u, detected, now) == Typable(s, detected, now)
  {
  }

  /** A step moves an ended adapter on exactly in these cases. */
  lemma RevivesExactly(t: Trace, taskId: TaskId, input: AdapterRuns.Input)
    requires t.s.lifecycle.Exited?
    ensures Step(t, taskId, input).s.lifecycle.Exited? <==> !Revives(t.s, taskId, input)
  {
    hide EncodeForState, Caught, PromptBytes, BytesOf, Typable, DeliveredDetails;
    match input
    case PollAt(seen, now, accepted, alive) => CaughtRevives(t, seen, now, accepted);
    case Answer(_) =>
    case Prompt(_, _) =>
  }

  /** What ends the lifecycle does not move it on. */
  lemma ExitsAreFinal(s: Session, taskId: TaskId, input: AdapterRuns.Input)
    requires Exits(s, taskId, input)
    ensures !Revives(s, taskId, input)
  {
    hide Typable, EncodeForState;
    if input.PollAt? && input.seen.Some? {
      TypableBlocks(s, input.seen.value.state, input.now);
    }
  }

  lemma TypableBlocks(s: Session, detected: AgentState, now: Time)
    ensures Typable(s, detected, now) ==> detected.UserQuestion?
  {
    hide ValidText;
  }

  function State(taskId: TaskId, initialPrompt: Option<string>, inputs: seq<AdapterRuns.Input>, i: nat): Session
    requires i <= |inputs|
  {
    Run(taskId, initialPrompt, inputs[..i]).s
  }

  /** Step `k` ends the lifecycle, and no later step moves it on. */
  ghost predicate EndedAt(taskId: TaskId, initialPrompt: Option<string>, inputs: seq<AdapterRuns.Input>, k: nat) {
    && k < |inputs|
    && Exits(State(taskId, initialPrompt, inputs, k), taskId, inputs[k])
    && forall m :: k < m < |inputs| ==> !Revives(State(taskId, initialPrompt, inputs, m), taskId, inputs[m])
  }

  lemma StateSnoc(taskId: TaskId, initialPrompt: Option<string>, inputs: seq<AdapterRuns.Input>)
    requires inputs != []
    ensures var init := inputs[..|inputs| - 1];
            && Run(taskId, initialPrompt, inputs) == Step(Run(taskId, initialPrompt, init), taskId, inputs[|inputs| - 1])
            && State(taskId, initialPrompt, inputs, |inputs| - 1) == Run(taskId, initialPrompt, init).s
            && forall m :: 0 <= m < |inputs| ==> State(taskId, initialPrompt, init, m) == State(taskId, initialPrompt, inputs, m)
  {
    hide Step;
    var init := inputs[..|inputs| - 1];
    assert forall m :: 0 <= m < |inputs| ==> init[..m] == inputs[..m];
  }

  /** The lifecycle is at its end exactly if some step ended it and none since moved it on. */
  lemma {:induction false} EndedExactly(taskId: TaskId, initialPrompt: Option<string>, inputs: seq<AdapterRuns.Input>)
    ensures Run(taskId, initialPrompt, inputs).s.lifecycle.Exited? <==> exists k :: EndedAt(taskId, initialPrompt, inputs, k)
  {
    hide Step, Run, Exits, Revives, State;
    if inputs == [] {
      RunEmpty(taskId, initialPrompt);
    } else {
      var n := |inputs| - 1;
      var init, last := inputs[..n], inputs[n];
      EndedExactly(taskId, initialPrompt, init);
      StateSnoc(taskId, initialPrompt, inputs);
      var t := Run(taskId, initialPrompt, init);
      EndsOrLasts(t, taskId, last);
      if Exits(t.s, taskId, last) {
        assert EndedAt(taskId, initialPrompt, inputs, n);
      }
      forall k: nat | k < n
        ensures EndedAt(taskId, initialPrompt, inputs, k) <==>
                  EndedAt(taskId, initialPrompt, init, k) && !Revives(t.s, taskId, last)
      {
        EndedMore(taskId, initialPrompt, inputs, k);
      }
    }
  }

  lemma EndedMore(taskId: TaskId, initialPrompt: Option<string>, inputs: seq<AdapterRuns.Input>, k: nat)
    requires k < |inputs| - 1
    ensures var init := inputs[..|inputs| - 1];
            EndedAt(taskId, initialPrompt, inputs, k) <==>
              && EndedAt(taskId, initialPrompt, init, k)
              && !Revives(Run(taskId, initialPrompt, init).s, taskId, inputs[|inputs| - 1])
  {
    hide Step, Run, Exits, Revives, State;
    StateSnoc(taskId, initialPrompt, inputs);
  }

  lemma EndsOrLasts(t: Trace, taskId: TaskId, input: AdapterRuns.Input)
    ensures Step(t, taskId, input).s.lifecycle.Exited? <==>
              Exits(t.s, taskId, input) || (t.s.lifecycle.Exited? && !Revives(t.s, taskId, input))
  {
    hide Step, Exits, Revives;
    if t.s.lifecycle.Exited? {
      RevivesExactly(t, taskId, input);
      if Exits(t.s, taskId, input) {
        ExitsAreFinal(t.s, taskId, input);
      }
    } else {
      ExitsExactly(t, taskId, input);
    }
  }

  /** A poll that finds the terminal gone raises an error, unless the lifecycle is at its end already: a
      step, possibly this poll before it looks at the terminal, refused a send, met a fatal error or found the
      terminal gone, and no step since moved it on. Work that was completed makes no exception, because the
      lifecycle never reaches its completed state. */
  lemma ExitReportedExactly(taskId: TaskId, initialPrompt: Option<string>, inputs: seq<AdapterRuns.Input>,
                            seen: Option<Sight>, now: Time, accepted: bool)
    ensures var up := inputs + [PollAt(seen, now, accepted, true)];
            var t, u := Run(taskId, initialPrompt, up), Run(taskId, initialPrompt, inputs + [PollAt(seen, now, accepted, false)]);
            && u.s.lifecycle.Exited?
            && (u.out == t.out || u.out == t.out + [Output(t.s.agentSeq + 1, "adapter_error", None)])
            && (u.out == t.out <==> exists k :: EndedAt(taskId, initialPrompt, up, k))
  {
    hide Run, Caught, EndedAt;
    var up := inputs + [PollAt(seen, now, accepted, true)];
    NeverFinished(taskId, initialPrompt, up);
    RunSnoc(taskId, initialPrompt, inputs, PollAt(seen, now, accepted, true));
    RunSnoc(taskId, initialPrompt, inputs, PollAt(seen, now, accepted, false));
    EndedExactly(taskId, initialPrompt, up);
  }

  /** The news of an exit: a fatal error is raised as a failed command; a refused send says nothing at all. */
  lemma ExitNews(t: Trace, taskId: TaskId, input: AdapterRuns.Input)
    requires !t.s.lifecycle.Exited? && Exits(t.s, taskId, input)
    ensures var u := Step(t, taskId, input);
            match input
            case Answer(_) => u.out == t.out && u.s.buffered == t.s.buffered
            case PollAt(seen, now, _, alive) =>
              alive ==>
                u.out == Started(t).out + if seen.value.state.FatalError?
                                          then [Output(Started(t).s.agentSeq + 1, "command_failed", None)] else []
            case Prompt(_, _) => false
  {
    hide EncodeForState, Typable, Transition, Started;
    if input.PollAt? && input.alive {
      StartedExits(t);
      var started := Started(t);
      var here := started.(s := started.s.(current := input.seen.value.state));
      if input.seen.value.state.FatalError? {
        FatalNews(here, input.seen.value, input.now, input.accepted);
      } else {
        RefusedNews(t.s, here, input.seen.value, input.now);
        assert here.out + [] == here.out;
      }
    }
  }

  lemma FatalNews(t: Trace, seen: Sight, now: Time, accepted: bool)
    requires seen.state.FatalError? && !t.s.lifecycle.Exited?
    ensures var u := Transition(t, seen, now, accepted);
            u.out == t.out + [Output(t.s.agentSeq + 1, "command_failed", None)] && u.s.current == t.s.current
  {
  }

  lemma RefusedNews(s: Session, t: Trace, seen: Sight, now: Time)
    requires Typable(s, seen.state, now) && t.s.writeIn == s.writeIn
    ensures Transition(t, seen, now, false) == t.(s := t.s.(writeIn := None, lifecycle := Exited))
  {
    RefusedEntry(t, seen, now);
  }

  lemma QuestionShown(initialPrompt: Option<string>, question: string)
    ensures var t := Polled(Fresh(initialPrompt), Some(Sight(AwaitingReply(question), None, false)), 0, true, true);
            && t.out == [Output(1, "started", None), Output(2, "input_required", Some(Asked(1, AwaitingReply(question))))]
            && t.s.buffered == [] && t.s.pending == Some(PendingRequest(1, 2, AwaitingReply(question)))
            && t.s.lastConsumed.None? && !t.s.lifecycle.Uninitialized?
  {
  }

  lemma RefusedSilently(t: Trace, taskId: TaskId, reply: Reply)
    requires Sendable(t.s, taskId, reply) && !reply.accepted
    ensures Responded(t, taskId, reply).1 ==
              t.(s := t.s.(lifecycle := Exited, pending := None, lastOutcome := Some(Expired)))
  {
    hide EncodeForState;
  }

  lemma GoneSilently(t: Trace, now: Time)
    requires t.s.lifecycle.Exited? && t.s.buffered == [] && t.s.lastConsumed.None?
    ensures var u := Polled(t, None, now, false, false); u.s.lifecycle.Exited? && u.out == t.out
  {
  }

  /** A run whose exit nobody hears of: a question, an answer to it that the terminal refuses, and a poll
      that finds the terminal gone. */
  lemma UnreportedExit(taskId: TaskId, initialPrompt: Option<string>, question: string, response: RequestResponse)
    requires EncodeForState(AwaitingReply(question), response).Ok?
    ensures var shown := PollAt(Some(Sight(AwaitingReply(question), None, false)), 0, true, true);
            var refused := Answer(Reply(taskId, None, response, 1, true, AwaitingReply(question), false));
            var gone := PollAt(None, 2, false, false);
            var t, u := Run(taskId, initialPrompt, [shown]), Run(taskId, initialPrompt, [shown, refused, gone]);
            && |t.out| == 2 && t.out[1].asked == Some(Asked(1, AwaitingReply(question)))
            && u.s.lifecycle.Exited? && u.out == t.out
  {
    hide EncodeForState, Run, Polled, Responded;
    var shown := PollAt(Some(Sight(AwaitingReply(question), None, false)), 0, true, true);
    var reply := Reply(taskId, None, response, 1, true, AwaitingReply(question), false);
    var gone := PollAt(None, 2, false, false);
    RunSnoc(taskId, initialPrompt, [], shown);
    RunSnoc(taskId, initialPrompt, [shown], Answer(reply));
    RunSnoc(taskId, initialPrompt, [shown, Answer(reply)], gone);
    assert [] + [shown] == [shown] && [shown] + [Answer(reply)] == [shown, Answer(reply)];
    assert [shown, Answer(reply)] + [gone] == [shown, Answer(reply), gone];
    RunEmpty(taskId, initialPrompt);
    QuestionShown(initialPrompt, question);
    RefusedSilently(Run(taskId, initialPrompt, [shown]), taskId, reply);
    GoneSilently(Run(taskId, initialPrompt, [shown, Answer(reply)]), 2);
  }

  lemma RunEmpty(taskId: TaskId, initialPrompt: Option<string>)
    ensures Run(taskId, initialPrompt, []) == Fresh(initialPrompt)
  {
  }

  // ---- dialogs -----------------------------------------------------------------------------------------

  lemma OpenedAsks(t: Trace, detected: AgentState, now: Time)
    requires detected.IsBlocking()
    ensures var u := OpenedRequest(t, detected, now);
            && (AsksAbout(u.s, detected) <==> AsksAbout(t.s, detected) || !Lingering(t.s, detected, now))
            && u.s.writeIn == t.s.writeIn && u.s.current == t.s.current
            && (AsksAbout(u.s, detected) || u.s == t.s)
  {
    SameRequestEquivalence(detected, detected, detected);
  }

  lemma ReopenedAsks(t: Trace, now: Time)
    requires t.s.current.IsBlocking()
    ensures var u := Reopened(t, now);
            && u.s.current == t.s.current
            && (AsksAbout(u.s, t.s.current) <==>
                  AsksAbout(t.s, t.s.current) || (t.s.pending.None? && t.s.writeIn.None? && GraceOver(t.s, now)))
  {
    hide OpenedRequest;
    OpenedAsks(t, t.s.current, now);
  }

  /** What a held-back text does to the requests. */
  lemma CompletedAsks(t: Trace, detected: AgentState, now: Time, accepted: bool)
    ensures var (handled, u) := CompletedWriteIn(t, detected, now, accepted);
            && handled == Typable(t.s, detected, now)
            && u.s.pending == t.s.pending && u.s.current == t.s.current
            && (handled ==> u.s.writeIn.None?)
            && u.s.lastConsumed == if handled && accepted then Some(ConsumedRequest(detected, now + CONSUMED_GRACE))
                                   else t.s.lastConsumed
  {
    hide ValidText, Retype, BytesOf;
  }

  /** When a poll of a live terminal leaves the dialog on screen asked about: if it was already; if it is new,
      unless it lingers from the last answer or a held-back text has just been sent to it; and if it is not
      new only once the grace period of an answer is over, with nothing pending and no text held back. */
  predicate WillAsk(s: Session, seen: Option<Sight>, now: Time, accepted: bool) {
    var state := if Changes(s, seen) then seen.value.state else s.current;
    || AsksAbout(s, state)
    || (if !Changes(s, seen) then s.pending.None? && Lapsed(s, now).writeIn.None? && GraceOver(s, now)
        else if Typable(s, state, now) then s.pending.None? && !accepted && GraceOver(s, now)
        else !Lingering(s, state, now))
  }

  lemma LookAsks(t: Trace, seen: Sight, now: Time, accepted: bool)
    requires seen.state.IsBlocking() && seen.state == t.s.current
    ensures var u := Transition(t, seen, now, accepted);
            && u.s.current == t.s.current
            && if Typable(t.s, seen.state, now) then
                 && u.s.pending == t.s.pending && u.s.writeIn.None?
                 && (if accepted then !GraceOver(u.s, now) else u.s.lastConsumed == t.s.lastConsumed)
               else
                 && (AsksAbout(u.s, seen.state) <==> AsksAbout(t.s, seen.state) || !Lingering(t.s, seen.state, now))
                 && (!AsksAbout(u.s, seen.state) ==> !GraceOver(u.s, now))
  {
    hide CompletedWriteIn, OpenedRequest, Typable;
    CompletedAsks(t, seen.state, now, accepted);
    OpenedAsks(CompletedWriteIn(t, seen.state, now, accepted).1, seen.state, now);
  }

  lemma StartedAsks(t: Trace, seen: Option<Sight>)
    ensures var u := Started(t);
            && u.s.pending == t.s.pending && u.s.current == t.s.current && u.s.writeIn == t.s.writeIn
            && u.s.lastConsumed == t.s.lastConsumed
  {
  }

  lemma AskedExactly(t: Trace, seen: Option<Sight>, now: Time, accepted: bool)
    requires var state := if Changes(t.s, seen) then seen.value.state else t.s.current; state.IsBlocking()
    ensures var u := Polled(t, seen, now, accepted, true);
            && u.s.current == (if Changes(t.s, seen) then seen.value.state else t.s.current)
            && (AsksAbout(u.s, u.s.current) <==> WillAsk(t.s, seen, now, accepted))
  {
    hide Transition, Started, Reopened, ValidText;
    StartedAsks(t, seen);
    var started := Started(t);
    var looked := Looked(started, seen, now, accepted);
    if Changes(t.s, seen) {
      LookAsks(started.(s := started.s.(current := seen.value.state)), seen.value, now, accepted);
    }
    ReopenedAsks(looked.(s := Lapsed(looked.s, now)), now);
  }

  /** Polls that show nothing but the state on screen already. */
  ghost predicate Unchanging(inputs: seq<AdapterRuns.Input>, state: AgentState) {
    forall i :: 0 <= i < |inputs| ==> inputs[i].PollAt? && (inputs[i].seen.Some? ==> inputs[i].seen.value.state == state)
  }

  function From(t: Trace, taskId: TaskId, inputs: seq<AdapterRuns.Input>): Trace {
    if inputs == [] then t
    else Step(From(t, taskId, inputs[..|inputs| - 1]), taskId, inputs[|inputs| - 1])
  }

  /** A dialog that nobody is asked about, after an expired request and without a past answer. */
  predicate Stranded(s: Session, state: AgentState) {
    s.current == state && s.pending.None? && s.lastConsumed.None? && s.lastOutcome == Some(Expired)
  }

  lemma StrandedPoll(t: Trace, taskId: TaskId, input: AdapterRuns.Input, state: AgentState)
    requires Stranded(t.s, state) && Unchanging([input], state)
    ensures var u := Step(t, taskId, input); Stranded(u.s, state) && u.log == t.log
  {
    hide Transition;
    assert [input][0] == input;
  }

  lemma {:induction false} StrandedStays(t: Trace, taskId: TaskId, inputs: seq<AdapterRuns.Input>, state: AgentState)
    requires Stranded(t.s, state) && Unchanging(inputs, state)
    ensures var u := From(t, taskId, inputs); Stranded(u.s, state) && u.log == t.log
  {
    hide Step, Stranded;
    if inputs != [] {
      var n := |inputs| - 1;
      StrandedStays(t, taskId, inputs[..n], state);
      assert [inputs[n]][0] == inputs[n];
      StrandedPoll(From(t, taskId, inputs[..n]), taskId, inputs[n], state);
    }
  }

  /** A response that finds another dialog on screen takes note of it without asking about it. If nothing was
      answered since the expired request was announced, then for as long as the dialog stays on screen, no
      poll asks about it and every response is refused as a mismatch. */
  lemma DialogStranded(t: Trace, taskId: TaskId, reply: Reply, inputs: seq<AdapterRuns.Input>, later: Reply)
    requires t.s.pending.Some? && t.s.lastConsumed.None?
    requires reply.taskId == taskId && reply.alive && !t.s.pending.value.state.SameRequest(reply.live)
    requires reply.requestSeq.Some? ==> reply.requestSeq.value == t.s.pending.value.agentSeq
    requires Unchanging(inputs, reply.live) && later.taskId == taskId && later.alive
    ensures Responded(t, taskId, reply).0 == Some(StateMismatch)
    ensures var u := From(Responded(t, taskId, reply).1, taskId, inputs);
            && u.log == t.log && u.s.current == reply.live && u.s.pending.None?
            && Responded(u, taskId, later).0 == Some(StateMismatch)
  {
    hide From;
    StrandedStays(Responded(t, taskId, reply).1, taskId, inputs, reply.live);
  }
}
