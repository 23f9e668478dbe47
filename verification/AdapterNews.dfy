/** Which events the adapter raises, and when. */
module AdapterNews {
  import opened Types
  import opened Classifier
  import opened Questions
  import opened InputEncoder
  import opened Adapters
  import opened AdapterRuns
  import opened AdapterGaps

  function Kinds(out: seq<Output>): seq<string> {
    seq(|out|, i requires 0 <= i < |out| => out[i].kind)
  }

  /** Everything raised so far, handed out or not. */
  function Everything(t: Trace): seq<Output> {
    t.out + t.s.buffered
  }

  function If(condition: bool, kind: string): seq<string> {
    if condition then [kind] else []
  }

  /** Work is done: the screen says so with evidence, or work was under way, the prompt is idle again and a
      summary with evidence can be read off the screen. */
  predicate Completes(s: Session, seen: Option<Sight>) {
    && Changes(s, seen)
    && (|| (seen.value.state.Done? && seen.value.evidence)
        || (seen.value.state.IdlePrompt? && (s.lifecycle.Engaged? || s.activePrompt.Some?)
            && seen.value.summary.Some? && seen.value.evidence))
  }

  /** A fatal error on a lifecycle that is not at its end. */
  predicate Fails(s: Session, seen: Option<Sight>) {
    Changes(s, seen) && seen.value.state.FatalError? && !s.lifecycle.Exited?
  }

  /** Work that is not the work under way. */
  predicate Works(s: Session, seen: Option<Sight>) {
    Changes(s, seen) && seen.value.state.Busy? && s.lifecycle != Engaged(seen.value.state.details)
  }

  /** The dialog on screen is asked about, and was not before. */
  predicate AsksAnew(s: Session, seen: Option<Sight>, now: Time, accepted: bool) {
    var state := if Changes(s, seen) then seen.value.state else s.current;
    state.IsBlocking() && WillAsk(s, seen, now, accepted) && !AsksAbout(s, state)
  }

  function AskingKind(state: AgentState): string {
    match state
    case UserQuestion(_, _, _) => "input_required"
    case AwaitingReply(_) => "input_required"
    case _ => "approval_required"
  }

  /** The terminal is gone and the lifecycle was not at its end before that was noticed. */
  predicate Disconnects(s: Session, seen: Option<Sight>, now: Time, accepted: bool, alive: bool) {
    && !alive
    && if s.lifecycle.Exited? then Revives(s, "", PollAt(seen, now, accepted, true))
       else !Exits(s, "", PollAt(seen, now, accepted, true))
  }

  /** The kinds of event that one input raises, in order. */
  function News(s: Session, taskId: TaskId, input: AdapterRuns.Input): seq<string> {
    match input
    case PollAt(seen, now, accepted, alive) =>
      If(s.lifecycle.Uninitialized?, "started")
      + If(Completes(s, seen), "task_completed")
      + If(Fails(s, seen), "command_failed")
      + If(Works(s, seen), "progress")
      + If(AsksAnew(s, seen, now, accepted), AskingKind(if Changes(s, seen) then seen.value.state else s.current))
      + If(Disconnects(s, seen, now, accepted, alive), "adapter_error")
    case Answer(reply) => If(Sendable(s, taskId, reply) && reply.accepted, "progress")
    case Prompt(_, accepted) => If(accepted, "progress")
  }

  // ---- one poll --------------------------------------------------------------------------------------

  /** `u` raised these kinds since `t`. */
  ghost predicate Said(t: Trace, u: Trace, kinds: seq<string>) {
    Kinds(Everything(u)) == Kinds(Everything(t)) + kinds
  }

  lemma SaidMore(t: Trace, u: Trace, v: Trace, a: seq<string>, b: seq<string>)
    requires Said(t, u, a) && Said(u, v, b)
    ensures Said(t, v, a + b)
  {
    assert Kinds(Everything(t)) + a + b == Kinds(Everything(t)) + (a + b);
  }

  lemma SaidNothing(t: Trace, u: Trace)
    requires Everything(u) == Everything(t)
    ensures Said(t, u, [])
  {
    assert Kinds(Everything(t)) + [] == Kinds(Everything(t));
  }

  lemma RaiseSays(t: Trace, u: Trace, kind: string, asked: Option<Asked>)
    requires t.s.buffered == [] && u.s.buffered == [] && u.out == t.out + [Output(t.s.agentSeq + 1, kind, asked)]
    ensures Said(t, u, [kind])
  {
    assert Everything(u) == u.out && Everything(t) == t.out;
  }

  lemma StartedSays(t: Trace)
    ensures var u := Started(t);
            && Said(t, u, If(t.s.lifecycle.Uninitialized?, "started")) && u.s.buffered == []
            && u.s == t.s.(lifecycle := u.s.lifecycle, buffered := [], agentSeq := u.s.agentSeq)
            && u.s.lifecycle == (if t.s.lifecycle.Uninitialized? then Starting else t.s.lifecycle)
  {
    var taken := t.(s := t.s.(buffered := []), out := t.out + t.s.buffered);
    assert Everything(taken) == Everything(t) by { assert taken.out + [] == taken.out; }
    SaidNothing(t, taken);
    if t.s.lifecycle.Uninitialized? {
      RaiseSays(taken, Started(t), "started", None);
      SaidMore(t, taken, Started(t), [], ["started"]);
      assert [] + ["started"] == ["started"];
    }
  }

  lemma AnnounceSays(t: Trace, detected: AgentState, now: Time)
    requires t.s.buffered == [] && detected.IsBlocking()
    ensures var u := Announce(t, detected, now);
            Said(t, u, [AskingKind(detected)]) && u.s.buffered == [] && AsksAbout(u.s, detected)
  {
    RaiseSays(t, Announce(t, detected, now), AskingKind(detected), Some(Asked(t.s.generation + 1, detected)));
    SameRequestEquivalence(detected, detected, detected);
  }

  lemma OpenedSays(t: Trace, detected: AgentState, now: Time)
    requires t.s.buffered == [] && detected.IsBlocking()
    ensures var u := OpenedRequest(t, detected, now);
            && Said(t, u, If(!AsksAbout(t.s, detected) && !Lingering(t.s, detected, now), AskingKind(detected)))
            && u.s.buffered == []
  {
    hide Announce;
    if AsksAbout(t.s, detected) || Lingering(t.s, detected, now) {
      SaidNothing(t, OpenedRequest(t, detected, now));
    } else {
      AnnounceSays(t, detected, now);
    }
  }

  lemma UnblockedSays(t: Trace, seen: Sight)
    requires t.s.buffered == [] && !seen.state.IsBlocking()
    ensures var u := Unblocked(t, seen);
            && u.s.buffered == [] && u.s.current == t.s.current
            && Said(t, u, UnblockedNews(t.s, seen))
  {
    var u := Unblocked(t, seen);
    if u.out == t.out {
      SaidNothing(t, u);
    } else {
      RaiseSays(t, u, u.out[|t.out|].kind, None);
    }
  }

  lemma CompletedSays(t: Trace, detected: AgentState, now: Time, accepted: bool)
    requires t.s.buffered == []
    ensures var u := CompletedWriteIn(t, detected, now, accepted).1; u.out == t.out && u.s.buffered == []
  {
    hide ValidText, Retype, BytesOf;
  }

  /** What a new sight raises. */
  function SightNews(s: Session, seen: Sight, now: Time): seq<string> {
    If((seen.state.Done? && seen.evidence)
       || (seen.state.IdlePrompt? && (s.lifecycle.Engaged? || s.activePrompt.Some?) && seen.summary.Some? && seen.evidence),
       "task_completed")
    + If(seen.state.FatalError? && !s.lifecycle.Exited?, "command_failed")
    + If(seen.state.Busy? && s.lifecycle != Engaged(seen.state.details), "progress")
    + If(seen.state.IsBlocking() && !Typable(s, seen.state, now) && !AsksAbout(s, seen.state)
         && !Lingering(s, seen.state, now), AskingKind(seen.state))
  }

  lemma BlockingSays(t: Trace, seen: Sight, now: Time, accepted: bool)
    requires t.s.buffered == [] && seen.state == t.s.current && seen.state.IsBlocking()
    ensures var u := Transition(t, seen, now, accepted);
            Said(t, u, BlockedNews(t.s, seen.state, now)) && u.s.buffered == [] && u.s.current == t.s.current
  {
    hide CompletedWriteIn, OpenedRequest, Unblocked, Said, Typable, Lingering;
    CompletedSays(t, seen.state, now, accepted);
    CompletedAsks(t, seen.state, now, accepted);
    var after := CompletedWriteIn(t, seen.state, now, accepted).1;
    SaidNothing(t, after);
    OpenedSays(after, seen.state, now);
    OpenedAsks(after, seen.state, now);
    SameLinger(t.s, after.s, seen.state, now);
    if !Typable(t.s, seen.state, now) {
      SaidFrom(t, after, OpenedRequest(after, seen.state, now), BlockedNews(t.s, seen.state, now));
    }
  }

  function BlockedNews(s: Session, state: AgentState, now: Time): seq<string> {
    If(!Typable(s, state, now) && !AsksAbout(s, state) && !Lingering(s, state, now), AskingKind(state))
  }

  function UnblockedNews(s: Session, seen: Sight): seq<string> {
    If((seen.state.Done? && seen.evidence)
       || (seen.state.IdlePrompt? && (s.lifecycle.Engaged? || s.activePrompt.Some?) && seen.summary.Some? && seen.evidence),
       "task_completed")
    + If(seen.state.FatalError? && !s.lifecycle.Exited?, "command_failed")
    + If(seen.state.Busy? && s.lifecycle != Engaged(seen.state.details), "progress")
  }

  lemma TransitionSays(t: Trace, seen: Sight, now: Time, accepted: bool)
    requires t.s.buffered == [] && seen.state == t.s.current
    ensures var u := Transition(t, seen, now, accepted);
            Said(t, u, SightNews(t.s, seen, now)) && u.s.buffered == [] && u.s.current == t.s.current
  {
    hide CompletedWriteIn, OpenedRequest, Unblocked, Said, BlockedNews, UnblockedNews, SightNews;
    if seen.state.IsBlocking() {
      BlockingSays(t, seen, now, accepted);
      SightIsBlocked(t.s, seen, now);
    } else {
      var expired := t.(s := WithExpired(t.s));
      UnblockedSays(expired, seen);
      SaidFrom(t, expired, Unblocked(expired, seen), UnblockedNews(expired.s, seen));
      SightIsUnblocked(t.s, expired.s, seen, now);
    }
  }

  lemma SightIsBlocked(s: Session, seen: Sight, now: Time)
    requires seen.state.IsBlocking()
    ensures SightNews(s, seen, now) == BlockedNews(s, seen.state, now)
  {
    hide Typable, Lingering;
  }

  lemma SightIsUnblocked(s: Session, u: Session, seen: Sight, now: Time)
    requires !seen.state.IsBlocking() && u.lifecycle == s.lifecycle && u.activePrompt == s.activePrompt
    ensures SightNews(s, seen, now) == UnblockedNews(u, seen)
  {
    hide Typable, Lingering;
    assert UnblockedNews(u, seen) + [] == UnblockedNews(u, seen);
  }

  lemma SameLinger(s: Session, u: Session, detected: AgentState, now: Time)
    ensures u.lastConsumed == s.lastConsumed ==> Lingering(u, detected, now) == Lingering(s, detected, now)
  {
  }

  lemma LookedSays(t: Trace, seen: Option<Sight>, now: Time, accepted: bool)
    requires t.s.buffered == []
    ensures var u := Looked(t, seen, now, accepted);
            && u.s.buffered == []
            && Said(t, u, if Changes(t.s, seen) then SightNews(t.s, seen.value, now) else [])
  {
    hide Transition, Said, SightNews;
    if Changes(t.s, seen) {
      var here := t.(s := t.s.(current := seen.value.state));
      TransitionSays(here, seen.value, now, accepted);
      SightIgnoresCurrent(t.s, here.s, seen.value, now);
      SaidFrom(t, here, Transition(here, seen.value, now, accepted), SightNews(t.s, seen.value, now));
    } else {
      SaidNothing(t, t);
    }
  }

  lemma SaidFrom(t: Trace, here: Trace, u: Trace, kinds: seq<string>)
    requires Everything(here) == Everything(t) && Said(here, u, kinds)
    ensures Said(t, u, kinds)
  {
  }

  lemma SightIgnoresCurrent(s: Session, u: Session, seen: Sight, now: Time)
    requires u == s.(current := u.current)
    ensures SightNews(u, seen, now) == SightNews(s, seen, now)
  {
    hide ValidText;
  }

  lemma ReopenedSays(t: Trace, now: Time)
    requires t.s.buffered == []
    ensures var u := Reopened(t, now);
            && u.s.buffered == []
            && Said(t, u, If(t.s.current.IsBlocking() && t.s.pending.None? && t.s.writeIn.None? && GraceOver(t.s, now),
                             AskingKind(t.s.current)))
  {
    hide OpenedRequest, Said;
    if t.s.current.IsBlocking() && t.s.pending.None? && t.s.writeIn.None? && GraceOver(t.s, now) {
      OpenedSays(t, t.s.current, now);
    } else {
      SaidNothing(t, t);
    }
  }

  lemma WatchedSays(t: Trace, alive: bool)
    requires t.s.buffered == [] && !t.s.lifecycle.Finished?
    ensures Said(t, Watched(t, alive), If(!alive && !t.s.lifecycle.Exited?, "adapter_error"))
  {
    if alive || t.s.lifecycle.Exited? {
      SaidNothing(t, t);
    } else {
      RaiseSays(t, Watched(t, alive), "adapter_error", None);
    }
  }

  /** The events of a poll before the terminal is looked after. */
  function CaughtNews(s: Session, seen: Option<Sight>, now: Time, accepted: bool): seq<string> {
    If(s.lifecycle.Uninitialized?, "started")
    + If(Completes(s, seen), "task_completed")
    + If(Fails(s, seen), "command_failed")
    + If(Works(s, seen), "progress")
    + If(AsksAnew(s, seen, now, accepted), AskingKind(if Changes(s, seen) then seen.value.state else s.current))
  }

  /** Whether a poll asks anew: by the look, or afterwards because a grace period is over. */
  lemma AsksOnce(s: Session, t: Trace, seen: Option<Sight>, now: Time, accepted: bool)
    requires t.s == s.(lifecycle := t.s.lifecycle, buffered := [], agentSeq := t.s.agentSeq)
    ensures var looked := Looked(t, seen, now, accepted);
            var lapsed := Lapsed(looked.s, now);
            var state := if Changes(s, seen) then seen.value.state else s.current;
            var byLook := Changes(s, seen) && state.IsBlocking() && !Typable(s, state, now) && !AsksAbout(s, state)
                          && !Lingering(s, state, now);
            var later := lapsed.current.IsBlocking() && lapsed.pending.None? && lapsed.writeIn.None? && GraceOver(lapsed, now);
            && lapsed.current == state
            && !(byLook && later)
            && (byLook || later <==> AsksAnew(s, seen, now, accepted))
  {
    hide Transition, Typable, Lingering;
    if Changes(s, seen) {
      var state := seen.value.state;
      var here := t.(s := t.s.(current := state));
      SameTypable(s, here.s, state, now);
      SameLinger(s, here.s, state, now);
      if state.IsBlocking() {
        LookAsks(here, seen.value, now, accepted);
      } else {
        LookCurrent(here, seen.value, now, accepted);
      }
    }
  }

  lemma LookCurrent(t: Trace, seen: Sight, now: Time, accepted: bool)
    requires !seen.state.IsBlocking()
    ensures Transition(t, seen, now, accepted).s.current == t.s.current
  {
  }

  lemma CaughtSays(t: Trace, seen: Option<Sight>, now: Time, accepted: bool)
    ensures var u := Caught(t, seen, now, accepted);
            Said(t, u, CaughtNews(t.s, seen, now, accepted)) && u.s.buffered == []
  {
    hide Said, Started, Looked, Reopened, Typable, Lingering, AsksAnew, GraceOver, AsksAbout, SightNews, CaughtNews,
      AskingKind, WillAsk;
    StartedSays(t);
    var started := Started(t);
    LookedSays(started, seen, now, accepted);
    var looked := Looked(started, seen, now, accepted);
    var lapsed := looked.(s := Lapsed(looked.s, now));
    SaidNothing(looked, lapsed);
    ReopenedSays(lapsed, now);
    AsksOnce(t.s, started, seen, now, accepted);
    var state := if Changes(t.s, seen) then seen.value.state else t.s.current;
    var first := If(t.s.lifecycle.Uninitialized?, "started");
    var second := if Changes(started.s, seen) then SightNews(started.s, seen.value, now) else [];
    var third := If(lapsed.s.current.IsBlocking() && lapsed.s.pending.None? && lapsed.s.writeIn.None? && GraceOver(lapsed.s, now),
                    AskingKind(lapsed.s.current));
    SaidMore(t, started, looked, first, second);
    SaidMore(t, looked, lapsed, first + second, []);
    SaidMore(t, lapsed, Reopened(lapsed, now), first + second + [], third);
    NewsJoin(t.s, started.s, seen, now, accepted, third);
    Regroup(first, second, third);
  }

  lemma Regroup(a: seq<string>, b: seq<string>, c: seq<string>)
    ensures a + b + [] + c == a + (b + c)
  {
  }

  lemma NewsJoin(s: Session, u: Session, seen: Option<Sight>, now: Time, accepted: bool, later: seq<string>)
    requires u == s.(lifecycle := u.lifecycle, buffered := [], agentSeq := u.agentSeq)
    requires u.lifecycle == (if s.lifecycle.Uninitialized? then Starting else s.lifecycle)
    requires var state := if Changes(s, seen) then seen.value.state else s.current;
             var byLook := Changes(s, seen) && state.IsBlocking() && !Typable(s, state, now) && !AsksAbout(s, state)
                           && !Lingering(s, state, now);
             && (later == [] || later == [AskingKind(state)])
             && !(byLook && later != []) && (byLook || later != [] <==> AsksAnew(s, seen, now, accepted))
    ensures If(s.lifecycle.Uninitialized?, "started") + ((if Changes(u, seen) then SightNews(u, seen.value, now) else []) + later)
              == CaughtNews(s, seen, now, accepted)
  {
    hide AsksAnew, Lingering, Typable, AskingKind, AgentState.IsBlocking, SightNews, Completes, Fails, Works;
    var state := if Changes(s, seen) then seen.value.state else s.current;
    var a, b, c := If(Completes(s, seen), "task_completed"), If(Fails(s, seen), "command_failed"), If(Works(s, seen), "progress");
    var asked := If(AsksAnew(s, seen, now, accepted), AskingKind(state));
    if Changes(s, seen) {
      var look := If(state.IsBlocking() && !Typable(s, state, now) && !AsksAbout(s, state) && !Lingering(s, state, now),
                     AskingKind(state));
      SightStarted(s, u, seen, now);
      assert look + later == asked;
      Regroups(If(s.lifecycle.Uninitialized?, "started"), a, b, c, look, later);
    } else {
      NothingSeen(s, seen);
      assert a == b == c == [] && later == asked;
      assert [] + later == later;
      Regroups(If(s.lifecycle.Uninitialized?, "started"), [], [], [], [], later);
    }
  }

  lemma NothingSeen(s: Session, seen: Option<Sight>)
    requires !Changes(s, seen)
    ensures !Completes(s, seen) && !Fails(s, seen) && !Works(s, seen)
  {
  }

  lemma SightStarted(s: Session, u: Session, seen: Option<Sight>, now: Time)
    requires u == s.(lifecycle := u.lifecycle, buffered := [], agentSeq := u.agentSeq) && Changes(s, seen)
    requires u.lifecycle == (if s.lifecycle.Uninitialized? then Starting else s.lifecycle)
    ensures var state := seen.value.state;
            SightNews(u, seen.value, now) ==
              If(Completes(s, seen), "task_completed") + If(Fails(s, seen), "command_failed") + If(Works(s, seen), "progress")
              + If(state.IsBlocking() && !Typable(s, state, now) && !AsksAbout(s, state) && !Lingering(s, state, now),
                   AskingKind(state))
  {
    hide Lingering, Typable, AskingKind, AgentState.IsBlocking, If;
    SameTypable(s, u, seen.value.state, now);
    SameLinger(s, u, seen.value.state, now);
  }

  lemma Regroups(start: seq<string>, a: seq<string>, b: seq<string>, c: seq<string>, look: seq<string>, later: seq<string>)
    ensures start + ((a + b + c + look) + later) == start + a + b + c + (look + later)
  {
  }

  lemma PolledSays(t: Trace, seen: Option<Sight>, now: Time, accepted: bool, alive: bool)
    requires !Caught(t, seen, now, accepted).s.lifecycle.Finished?
    ensures Said(t, Polled(t, seen, now, accepted, alive), News(t.s, "", PollAt(seen, now, accepted, alive)))
  {
    hide Said, Caught, AsksAnew, Completes, Fails, Works, Watched, Exits, Revives;
    CaughtSays(t, seen, now, accepted);
    var caught := Caught(t, seen, now, accepted);
    WatchedSays(caught, alive);
    if t.s.lifecycle.Exited? {
      CaughtRevives(t, seen, now, accepted);
    } else {
      CaughtExits(t, seen, now, accepted);
    }
    SaidMore(t, caught, Watched(caught, alive), CaughtNews(t.s, seen, now, accepted),
             If(Disconnects(t.s, seen, now, accepted, alive), "adapter_error"));
  }

  // ---- every input -----------------------------------------------------------------------------------

  lemma BufferSays(t: Trace, u: Trace, kind: string)
    requires u.out == t.out && u.s.buffered == t.s.buffered + [Output(t.s.agentSeq + 1, kind, None)]
    ensures Said(t, u, [kind])
  {
    assert Everything(u) == Everything(t) + [Output(t.s.agentSeq + 1, kind, None)];
  }

  lemma AnswerSays(t: Trace, taskId: TaskId, reply: Reply)
    ensures Said(t, Responded(t, taskId, reply).1, News(t.s, taskId, Answer(reply)))
  {
    hide EncodeForState, BytesOf, Said, DeliveredDetails;
    var u := Responded(t, taskId, reply).1;
    if Sendable(t.s, taskId, reply) && reply.accepted {
      BufferSays(t, u, "progress");
    } else {
      SaidNothing(t, u);
    }
  }

  lemma PromptSays(t: Trace, taskId: TaskId, prompt: string, accepted: bool)
    ensures Said(t, PromptStarted(t, prompt, accepted), News(t.s, taskId, Prompt(prompt, accepted)))
  {
    hide PromptBytes, Said;
    if accepted {
      BufferSays(t, PromptStarted(t, prompt, accepted), "progress");
    } else {
      SaidNothing(t, PromptStarted(t, prompt, accepted));
    }
  }

  lemma PollNewsOfAnyTask(s: Session, taskId: TaskId, seen: Option<Sight>, now: Time, accepted: bool, alive: bool)
    ensures News(s, taskId, PollAt(seen, now, accepted, alive)) == News(s, "", PollAt(seen, now, accepted, alive))
  {
    hide Exits, Revives, WillAsk;
  }

  /** Over every run, what each input raises: exactly these kinds, each at most once, in this order. What a poll
      raises it hands out at once, after what was raised before it; an answer and a prompt leave theirs to the
      next poll. */
  lemma NewsExactly(taskId: TaskId, initialPrompt: Option<string>, inputs: seq<AdapterRuns.Input>, input: AdapterRuns.Input)
    ensures var t, u := Run(taskId, initialPrompt, inputs), Run(taskId, initialPrompt, inputs + [input]);
            && Kinds(u.out + u.s.buffered) == Kinds(t.out + t.s.buffered) + News(t.s, taskId, input)
            && (input.PollAt? ==> u.s.buffered == [])
            && (!input.PollAt? ==> u.out == t.out)
  {
    hide Run, Polled, Responded, PromptStarted, Caught, News;
    RunSnoc(taskId, initialPrompt, inputs, input);
    var t := Run(taskId, initialPrompt, inputs);
    match input
    case PollAt(seen, now, accepted, alive) =>
      NeverFinished(taskId, initialPrompt, inputs + [PollAt(seen, now, accepted, true)]);
      RunSnoc(taskId, initialPrompt, inputs, PollAt(seen, now, accepted, true));
      AlivePoll(t, seen, now, accepted);
      PolledSays(t, seen, now, accepted, alive);
      PollNewsOfAnyTask(t.s, taskId, seen, now, accepted, alive);
      PollHandsOut(t, seen, now, accepted, alive);
    case Answer(reply) =>
      AnswerSays(t, taskId, reply);
      AnswerKeepsOut(t, taskId, reply);
    case Prompt(prompt, accepted) =>
      PromptSays(t, taskId, prompt, accepted);
      PromptKeepsOut(t, prompt, accepted);
  }

  lemma AlivePoll(t: Trace, seen: Option<Sight>, now: Time, accepted: bool)
    ensures Polled(t, seen, now, accepted, true) == Caught(t, seen, now, accepted)
  {
    hide Caught;
  }

  lemma PollHandsOut(t: Trace, seen: Option<Sight>, now: Time, accepted: bool, alive: bool)
    ensures Polled(t, seen, now, accepted, alive).s.buffered == []
  {
    hide Caught;
    CaughtSays(t, seen, now, accepted);
  }

  lemma AnswerKeepsOut(t: Trace, taskId: TaskId, reply: Reply)
    ensures Responded(t, taskId, reply).1.out == t.out
  {
    hide EncodeForState, BytesOf, DeliveredDetails;
  }

  lemma PromptKeepsOut(t: Trace, prompt: string, accepted: bool)
    ensures PromptStarted(t, prompt, accepted).out == t.out
  {
    hide PromptBytes;
  }

  lemma KnownKinds(s: Session, taskId: TaskId, input: AdapterRuns.Input)
    ensures forall kind :: kind in News(s, taskId, input) ==>
              kind in ["started", "task_completed", "command_failed", "progress", "input_required", "approval_required",
                       "adapter_error"]
  {
    hide Exits, Revives, AsksAnew, Completes, Fails, Works, Sendable, Disconnects;
  }

  lemma MeaningOf(kind: string)
    requires kind in ["started", "task_completed", "command_failed", "progress", "input_required", "approval_required",
                      "adapter_error"]
    ensures Classify(kind) ==
              if kind == "task_completed" then Classification(Completed, Important, Exact)
              else if kind == "command_failed" || kind == "adapter_error" then Classification(Error, Critical, Exact)
              else if kind == "input_required" || kind == "approval_required" then Classification(Request, Critical, Exact)
              else Classification(Working, if kind == "started" then Notable else Routine, Exact)
  {
    hide Classify, EndsWith;
    KindsClassified(kind);
  }

  /** Every kind that the adapter raises is known by name, as what it means: a question to a human is a critical
      request, a completion is a completion, a failure an error, and the rest is work. */
  lemma KindsMeanWhatTheySay(s: Session, taskId: TaskId, input: AdapterRuns.Input, kind: string)
    requires kind in News(s, taskId, input)
    ensures Classify(kind).matched == Exact
    ensures Classify(kind).category == Completed <==> kind == "task_completed"
    ensures Classify(kind).category == Error <==> kind == "command_failed" || kind == "adapter_error"
    ensures Classify(kind).category == Request <==> kind == "input_required" || kind == "approval_required"
    ensures Classify(kind).category == Working <==> kind == "started" || kind == "progress"
    ensures Classify(kind).category in {Error, Request} ==> Classify(kind).severity == Critical
  {
    hide News, Classify;
    KnownKinds(s, taskId, input);
    MeaningOf(kind);
  }
}
