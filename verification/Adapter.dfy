/** The terminal adapter: requests announced from what is on screen, answers typed back. */
module Adapters {
  import opened Types
  import opened Text
  import opened Screens
  import opened Questions
  import opened InputEncoder
  import Utf8

  /** How long a dialog that was just answered may linger before it is a request again. */
  const CONSUMED_GRACE := 5 * SECOND

  /** How long a held-back text waits for its entry control. */
  const WRITE_IN_WINDOW := 10 * SECOND

  datatype Lifecycle =
    | Uninitialized
    | Starting
    | Running
    | Engaged(details: string)
    | BlockedOnPermission(state: AgentState)
    | Finished(message: string)
    | Exited

  datatype PendingRequest = PendingRequest(generation: nat, agentSeq: nat, state: AgentState)

  datatype RequestOutcome = Consumed | Expired

  datatype ConsumedRequest = ConsumedRequest(state: AgentState, graceUntil: Time)

  datatype PendingWriteIn = PendingWriteIn(question: string, text: string, deadline: Time)

  /** What a request event asks. */
  datatype Asked = Asked(generation: nat, state: AgentState)

  /** An event as the adapter emits it; `asked` is there for requests only. */
  datatype Output = Output(agentSeq: nat, kind: string, asked: Option<Asked>)

  /** The fields of the adapter, and the byte strings its terminal has accepted. */
  datatype Session = Session(
    lifecycle: Lifecycle,
    agentSeq: nat,
    current: AgentState,
    buffered: seq<Output>,
    generation: nat,
    pending: Option<PendingRequest>,
    lastOutcome: Option<RequestOutcome>,
    lastConsumed: Option<ConsumedRequest>,
    writeIn: Option<PendingWriteIn>,
    activePrompt: Option<string>,
    sent: seq<seq<Byte>>)

  /** What happens over a run. An answer carries the request it was delivered to, what was on screen, what
      was typed and, if it only opened a text entry, the text held back. */
  datatype Happening =
    | Announced(agentSeq: nat, asked: Asked, at: Time)
    | Delivered(request: PendingRequest, requestSeq: Option<nat>, response: RequestResponse, live: AgentState,
                input: QuestionInput, at: Time)
    | TypedIn(text: string, live: AgentState, keys: seq<Key>, at: Time)
    | Prompted(bytes: seq<Byte>)

  /** The adapter, everything it has handed out and everything that has happened. */
  datatype Trace = Trace(s: Session, out: seq<Output>, log: seq<Happening>)

  /** What a look at the screen shows: the detected state, the summary of the work and whether it holds
      evidence of completion. */
  datatype Sight = Sight(state: AgentState, summary: Option<string>, evidence: bool)

  // ---- specification ----------------------------------------------------------------------------------

  function Raise(t: Trace, kind: string, asked: Option<Asked>): Trace {
    var next := t.s.agentSeq + 1;
    t.(s := t.s.(agentSeq := next), out := t.out + [Output(next, kind, asked)])
  }

  /** Raised now, handed out by the next poll. */
  function Buffer(t: Trace, kind: string): Trace {
    var next := t.s.agentSeq + 1;
    t.(s := t.s.(agentSeq := next, buffered := t.s.buffered + [Output(next, kind, None)]))
  }

  function WithExpired(s: Session): Session {
    if s.pending.Some? then s.(pending := None, lastOutcome := Some(Expired)) else s
  }

  function RequestKind(state: AgentState): string {
    if state.UserQuestion? || state.AwaitingReply? then "input_required" else "approval_required"
  }

  predicate Lingering(s: Session, detected: AgentState, now: Time) {
    s.lastConsumed.Some? && s.lastConsumed.value.state.SameRequest(detected) && now < s.lastConsumed.value.graceUntil
  }

  function Announce(t: Trace, detected: AgentState, now: Time): Trace {
    var generation := t.s.generation + 1;
    var s := WithExpired(t.s).(lastConsumed := None, generation := generation,
                               lifecycle := BlockedOnPermission(detected));
    var raised := Raise(t.(s := s), RequestKind(detected), Some(Asked(generation, detected)));
    raised.(s := raised.s.(pending := Some(PendingRequest(generation, raised.s.agentSeq, detected))),
            log := t.log + [Announced(raised.s.agentSeq, Asked(generation, detected), now)])
  }

  function OpenedRequest(t: Trace, detected: AgentState, now: Time): Trace {
    if t.s.pending.Some? && t.s.pending.value.state.SameRequest(detected) then
      t.(s := t.s.(pending := Some(t.s.pending.value.(state := detected)), lifecycle := BlockedOnPermission(detected)))
    else if Lingering(t.s, detected, now) then t
    else Announce(t, detected, now)
  }

  /** Whether the text entry that a held-back text waits for is on screen. */
  predicate EntryShown(s: Session, detected: AgentState) {
    s.writeIn.Some? && detected.UserQuestion? && detected.controls.FreeText?
  }

  function TypeText(t: Trace, detected: AgentState, now: Time): Trace
    requires EntryShown(t.s, detected)
  {
    var text := t.s.writeIn.value.text;
    var keys := Retype(detected.controls.currentText, text);
    Trace(t.s.(writeIn := None, lastConsumed := Some(ConsumedRequest(detected, now + CONSUMED_GRACE)),
               lifecycle := Engaged("Write-in answer delivered to Antigravity"),
               sent := t.s.sent + [BytesOf(keys)]),
          t.out, t.log + [TypedIn(text, detected, keys, now)])
  }

  /** Phase two of a write-in answer; the flag says whether the sight was handled. */
  function CompletedWriteIn(t: Trace, detected: AgentState, now: Time, accepted: bool): (bool, Trace) {
    var dropped := t.(s := t.s.(writeIn := None));
    if t.s.writeIn.None? then (false, t)
    else if now > t.s.writeIn.value.deadline then (false, dropped)
    else if !EntryShown(t.s, detected) then (false, t)
    else if detected.question != t.s.writeIn.value.question then (false, dropped)
    else if !ValidText(t.s.writeIn.value.text) then (false, dropped)
    else if !accepted then (true, dropped.(s := dropped.s.(lifecycle := Exited)))
    else (true, TypeText(t, detected, now))
  }

  /** A state that waits for nobody. */
  function Unblocked(t: Trace, seen: Sight): Trace {
    var s := t.s;
    match seen.state
    case Busy(details) =>
      if s.lifecycle == Engaged(details) then t
      else Raise(t.(s := s.(lifecycle := Engaged(details))), "progress", None)
    case Done(_) =>
      var done := t.(s := s.(writeIn := None, activePrompt := None, lifecycle := Running));
      if seen.evidence then Raise(done, "task_completed", None) else done
    case FatalError(_) =>
      var failed := t.(s := s.(writeIn := None));
      if s.lifecycle.Exited? then failed
      else Raise(failed.(s := failed.s.(lifecycle := Exited)), "command_failed", None)
    case IdlePrompt =>
      var worked := s.lifecycle.Engaged? || s.activePrompt.Some?;
      var idle := t.(s := s.(writeIn := None, lifecycle := Running,
                             activePrompt := if worked then None else s.activePrompt));
      if worked && seen.summary.Some? && seen.evidence then Raise(idle, "task_completed", None) else idle
    case _ => t
  }

  function Transition(t: Trace, seen: Sight, now: Time, accepted: bool): Trace {
    if seen.state.IsBlocking() then
      var (handled, after) := CompletedWriteIn(t, seen.state, now, accepted);
      if handled then after else OpenedRequest(after, seen.state, now)
    else Unblocked(t.(s := WithExpired(t.s)), seen)
  }

  function Started(t: Trace): Trace {
    var taken := t.(s := t.s.(buffered := []), out := t.out + t.s.buffered);
    if t.s.lifecycle.Uninitialized? then Raise(taken.(s := taken.s.(lifecycle := Starting)), "started", None)
    else taken
  }

  /** A screen is looked at when bytes have arrived. */
  function Looked(t: Trace, seen: Option<Sight>, now: Time, accepted: bool): Trace {
    if seen.Some? && seen.value.state != t.s.current then
      Transition(t.(s := t.s.(current := seen.value.state)), seen.value, now, accepted)
    else t
  }

  function Lapsed(s: Session, now: Time): Session {
    if s.writeIn.Some? && now > s.writeIn.value.deadline then s.(writeIn := None) else s
  }

  /** A dialog that survived its grace period is a request again. */
  function Reopened(t: Trace, now: Time): Trace {
    if t.s.pending.None? && t.s.writeIn.None? && t.s.current.IsBlocking()
       && t.s.lastConsumed.Some? && now >= t.s.lastConsumed.value.graceUntil
    then OpenedRequest(t, t.s.current, now)
    else t
  }

  function Watched(t: Trace, alive: bool): Trace {
    if alive || t.s.lifecycle.Exited? then t
    else
      var gone := t.(s := WithExpired(t.s).(lifecycle := Exited, writeIn := None));
      if t.s.lifecycle.Finished? then gone else Raise(gone, "adapter_error", None)
  }

  /** A poll up to the check that the terminal is alive. */
  function Caught(t: Trace, seen: Option<Sight>, now: Time, accepted: bool): Trace {
    var looked := Looked(Started(t), seen, now, accepted);
    Reopened(looked.(s := Lapsed(looked.s, now)), now)
  }

  function Polled(t: Trace, seen: Option<Sight>, now: Time, accepted: bool, alive: bool): Trace {
    Watched(Caught(t, seen, now, accepted), alive)
  }

  /** A response, and what the terminal does: whether it is alive, what it shows and whether it accepts
      input. */
  datatype Reply = Reply(
    taskId: TaskId, requestSeq: Option<nat>, response: RequestResponse, at: Time,
    alive: bool, live: AgentState, accepted: bool)

  function DeliveredDetails(generation: nat): string {
    "Response delivered to Antigravity (generation " + Decimal(generation) + ")"
  }

  function Deliver(t: Trace, reply: Reply, input: QuestionInput): Trace
    requires t.s.pending.Some?
  {
    var s := t.s.(pending := None, lastOutcome := Some(Consumed),
                  lastConsumed := Some(ConsumedRequest(reply.live, reply.at + CONSUMED_GRACE)),
                  sent := t.s.sent + [BytesOf(input.keys)]);
    var engaged :=
      if input.OpenWriteIn? && reply.live.UserQuestion? then
        s.(writeIn := Some(PendingWriteIn(reply.live.question, input.pendingText, reply.at + WRITE_IN_WINDOW)),
           lifecycle := Engaged("Opening write-in answer entry"))
      else s.(lifecycle := Engaged(DeliveredDetails(t.s.pending.value.generation)));
    Buffer(Trace(engaged, t.out,
                 t.log + [Delivered(t.s.pending.value, reply.requestSeq, reply.response, reply.live, input, reply.at)]),
           "progress")
  }

  /** The error, if the response is refused, and what follows. */
  function Responded(t: Trace, taskId: TaskId, reply: Reply): (Option<RespondError>, Trace) {
    var s := t.s;
    if taskId != reply.taskId then (Some(NoSuchTask), t)
    else if !reply.alive then (Some(Disconnected), t.(s := WithExpired(s)))
    else if s.pending.None? then
      (Some(match s.lastOutcome
            case Some(Consumed) => AlreadyConsumed
            case Some(Expired) => StateMismatch
            case None => NotBlocked), t)
    else if reply.requestSeq.Some? && reply.requestSeq.value != s.pending.value.agentSeq then (Some(WrongRequest), t)
    else if !s.pending.value.state.SameRequest(reply.live) then
      (Some(StateMismatch), t.(s := WithExpired(s.(current := reply.live))))
    else match EncodeForState(reply.live, reply.response)
      case Err(error) => (Some(error), t)
      case Ok(input) =>
        if !reply.accepted then
          (Some(Disconnected), t.(s := s.(lifecycle := Exited, pending := None, lastOutcome := Some(Expired))))
        else (None, Deliver(t, reply, input))
  }

  function PromptBytes(prompt: string): seq<Byte> {
    var bytes := Utf8.EncodeAll(prompt);
    if '\n' in prompt then [0x1b, 0x5b, 0x32, 0x30, 0x30, 0x7e] + bytes + [0x1b, 0x5b, 0x32, 0x30, 0x31, 0x7e, 0x0d]
    else bytes + [0x0d]
  }

  function PromptStarted(t: Trace, prompt: string, accepted: bool): Trace {
    if !accepted then t
    else
      var details := "Executing prompt: " + prompt;
      Buffer(Trace(t.s.(activePrompt := Some(prompt), lifecycle := Engaged(details), current := Busy(details),
                        sent := t.s.sent + [PromptBytes(prompt)]),
                   t.out, t.log + [Prompted(PromptBytes(prompt))]),
             "progress")
  }

  // ---- the adapter ------------------------------------------------------------------------------------

  class PtyAdapter {
    const taskId: TaskId
    var lifecycle: Lifecycle
    var agentSeq: nat
    var current: AgentState
    var buffered: seq<Output>
    var generation: nat
    var pending: Option<PendingRequest>
    var lastOutcome: Option<RequestOutcome>
    var lastConsumed: Option<ConsumedRequest>
    var writeIn: Option<PendingWriteIn>
    var activePrompt: Option<string>
    var sent: seq<seq<Byte>>
    ghost var handedOut: seq<Output>
    ghost var log: seq<Happening>

    ghost function State(): Session
      reads this
    {
      Session(lifecycle, agentSeq, current, buffered, generation, pending, lastOutcome, lastConsumed, writeIn,
              activePrompt, sent)
    }

    ghost function History(): Trace
      reads this
    {
      Trace(State(), handedOut, log)
    }

    constructor (taskId: TaskId, initialPrompt: Option<string>)
      ensures this.taskId == taskId && History() == Fresh(initialPrompt)
    {
      this.taskId := taskId;
      lifecycle, agentSeq, current := Uninitialized, 0, Initializing;
      buffered, generation, pending := [], 0, None;
      lastOutcome, lastConsumed, writeIn := None, None, None;
      activePrompt, sent := initialPrompt, [];
      handedOut, log := [], [];
    }

    method RaiseEvent(kind: string, asked: Option<Asked>) returns (o: Output)
      modifies `agentSeq, `handedOut
      ensures History() == Raise(old(History()), kind, asked) && handedOut == old(handedOut) + [o]
    {
      agentSeq := agentSeq + 1;
      o := Output(agentSeq, kind, asked);
      handedOut := handedOut + [o];
    }

    method BufferEvent(kind: string)
      modifies `agentSeq, `buffered
      ensures History() == Buffer(old(History()), kind)
    {
      agentSeq := agentSeq + 1;
      buffered := buffered + [Output(agentSeq, kind, None)];
    }

    method ExpirePending()
      modifies `pending, `lastOutcome
      ensures State() == WithExpired(old(State()))
    {
      if pending.Some? {
        pending, lastOutcome := None, Some(Expired);
      }
    }

    method StartGeneration(detected: AgentState)
      modifies `lastConsumed, `pending, `lastOutcome, `generation, `lifecycle
      ensures State() == WithExpired(old(State())).(lastConsumed := None, generation := old(State()).generation + 1,
                                                    lifecycle := BlockedOnPermission(detected))
    {
      lastConsumed := None;
      ExpirePending();
      generation := generation + 1;
      lifecycle := BlockedOnPermission(detected);
    }

    method RecordRequest(detected: AgentState, now: Time)
      modifies `pending, `log
      ensures State() == old(State()).(pending := Some(PendingRequest(old(State()).generation, old(State()).agentSeq, detected)))
      ensures log == old(log) + [Announced(old(State()).agentSeq, Asked(old(State()).generation, detected), now)]
    {
      pending := Some(PendingRequest(generation, agentSeq, detected));
      log := log + [Announced(agentSeq, Asked(generation, detected), now)];
    }

    lemma Generation()
      ensures State().generation == generation
    {
    }

    method AnnounceRequest(detected: AgentState, now: Time) returns (o: Output)
      requires detected.IsBlocking()
      modifies this
      ensures History() == Announce(old(History()), detected, now) && handedOut == old(handedOut) + [o]
    {
      hide State, RequestKind, WithExpired;
      StartGeneration(detected);
      Generation();
      o := RaiseEvent(RequestKind(detected), Some(Asked(generation, detected)));
      RecordRequest(detected, now);
    }

    method OpenRequest(detected: AgentState, now: Time) returns (out: seq<Output>)
      requires detected.IsBlocking()
      modifies this
      ensures History() == OpenedRequest(old(History()), detected, now) && handedOut == old(handedOut) + out
    {
      hide Announce;
      out := [];
      if pending.Some? && pending.value.state.SameRequest(detected) {
        pending, lifecycle := Some(pending.value.(state := detected)), BlockedOnPermission(detected);
        return;
      }
      if lastConsumed.Some? && lastConsumed.value.state.SameRequest(detected) && now < lastConsumed.value.graceUntil {
        return;
      }
      var o := AnnounceRequest(detected, now);
      out := [o];
    }

    method DropWriteIn()
      modifies `writeIn
      ensures State() == old(State()).(writeIn := None)
    {
      writeIn := None;
    }

    /** Clears the entry, types the text that was held back and submits it. */
    method TypeHeld(detected: AgentState, now: Time)
      requires EntryShown(State(), detected)
      modifies `writeIn, `sent, `lastConsumed, `lifecycle, `log
      ensures History() == TypeText(old(History()), detected, now)
    {
      hide Retype, BytesOf;
      var text := writeIn.value.text;
      var keys := Retype(detected.controls.currentText, text);
      writeIn, sent := None, sent + [BytesOf(keys)];
      lastConsumed, lifecycle :=
        Some(ConsumedRequest(detected, now + CONSUMED_GRACE)), Engaged("Write-in answer delivered to Antigravity");
      log := log + [TypedIn(text, detected, keys, now)];
    }

    lemma WriteInField()
      ensures State().writeIn == writeIn
    {
    }

    /** `accepted` says whether the terminal takes the bytes. */
    method TryCompleteWriteIn(detected: AgentState, now: Time, accepted: bool) returns (handled: bool)
      modifies this
      ensures (handled, History()) == CompletedWriteIn(old(History()), detected, now, accepted)
    {
      hide State, ValidText, TypeText;
      WriteInField();
      if writeIn.None? {
        return false;
      }
      if now > writeIn.value.deadline {
        DropWriteIn();
        return false;
      }
      if !(detected.UserQuestion? && detected.controls.FreeText?) {
        return false;
      }
      if detected.question != writeIn.value.question || !ValidText(writeIn.value.text) {
        DropWriteIn();
        return false;
      }
      if !accepted {
        DropWriteIn();
        Leave();
        return true;
      }
      TypeHeld(detected, now);
      return true;
    }

    method Leave()
      modifies `lifecycle
      ensures State() == old(State()).(lifecycle := Exited)
    {
      lifecycle := Exited;
    }

    method HandleUnblocked(seen: Sight) returns (out: seq<Output>)
      requires !seen.state.IsBlocking()
      modifies this
      ensures History() == Unblocked(old(History()), seen) && handedOut == old(handedOut) + out
    {
      out := [];
      if seen.state.Busy? {
        if lifecycle != Engaged(seen.state.details) {
          lifecycle := Engaged(seen.state.details);
          var o := RaiseEvent("progress", None);
          out := [o];
        }
      } else if seen.state.Done? {
        writeIn, activePrompt, lifecycle := None, None, Running;
        if seen.evidence {
          var o := RaiseEvent("task_completed", None);
          out := [o];
        }
      } else if seen.state.FatalError? {
        writeIn := None;
        if !lifecycle.Exited? {
          lifecycle := Exited;
          var o := RaiseEvent("command_failed", None);
          out := [o];
        }
      } else if seen.state.IdlePrompt? {
        writeIn := None;
        var worked := lifecycle.Engaged? || activePrompt.Some?;
        lifecycle := Running;
        if worked {
          activePrompt := None;
          if seen.summary.Some? && seen.evidence {
            var o := RaiseEvent("task_completed", None);
            out := [o];
          }
        }
      }
    }

    method HandleStateTransition(seen: Sight, now: Time, accepted: bool) returns (out: seq<Output>)
      modifies this
      ensures History() == Transition(old(History()), seen, now, accepted) && handedOut == old(handedOut) + out
    {
      if seen.state.IsBlocking() {
        var handled := TryCompleteWriteIn(seen.state, now, accepted);
        if handled {
          return [];
        }
        out := OpenRequest(seen.state, now);
      } else {
        ExpirePending();
        out := HandleUnblocked(seen);
      }
    }

    method TakeBuffered() returns (out: seq<Output>)
      modifies this
      ensures History() == Started(old(History())) && handedOut == old(handedOut) + out
    {
      out, buffered := buffered, [];
      handedOut := handedOut + out;
      if lifecycle.Uninitialized? {
        lifecycle := Starting;
        var o := RaiseEvent("started", None);
        out := out + [o];
      }
    }

    method Reopen(now: Time) returns (out: seq<Output>)
      modifies this
      ensures History() == Reopened(old(History()), now) && handedOut == old(handedOut) + out
    {
      hide OpenedRequest;
      out := [];
      if pending.None? && writeIn.None? && current.IsBlocking() && lastConsumed.Some?
         && now >= lastConsumed.value.graceUntil {
        out := OpenRequest(current, now);
      }
    }

    method NoticeExit(alive: bool) returns (out: seq<Output>)
      modifies this
      ensures History() == Watched(old(History()), alive) && handedOut == old(handedOut) + out
    {
      out := [];
      if !alive && !lifecycle.Exited? {
        var wasFinished := lifecycle.Finished?;
        lifecycle := Exited;
        ExpirePending();
        writeIn := None;
        if !wasFinished {
          var o := RaiseEvent("adapter_error", None);
          out := [o];
        }
      }
    }

    method SetCurrent(state: AgentState)
      modifies `current
      ensures State() == old(State()).(current := state)
    {
      current := state;
    }

    lemma WatchedFields()
      ensures State().current == current && State().writeIn == writeIn
    {
    }

    /** `seen` is what the screen shows if bytes have arrived; `accepted` and `alive` are the terminal's. */
    method Poll(seen: Option<Sight>, now: Time, accepted: bool, alive: bool) returns (out: seq<Output>)
      modifies this
      ensures History() == Polled(old(History()), seen, now, accepted, alive) && handedOut == old(handedOut) + out
    {
      hide State, Started, Transition, Reopened, Watched;
      out := TakeBuffered();
      WatchedFields();
      if seen.Some? && seen.value.state != current {
        SetCurrent(seen.value.state);
        var more := HandleStateTransition(seen.value, now, accepted);
        out := out + more;
      }
      WatchedFields();
      if writeIn.Some? && now > writeIn.value.deadline {
        DropWriteIn();
      }
      var reopened := Reopen(now);
      var last := NoticeExit(alive);
      out := out + reopened + last;
    }

    /** The keys are typed and the request is answered. */
    method Consume(reply: Reply, input: QuestionInput)
      requires pending.Some?
      modifies `sent, `log, `pending, `lastOutcome, `lastConsumed
      ensures State() == old(State()).(pending := None, lastOutcome := Some(Consumed),
                                       lastConsumed := Some(ConsumedRequest(reply.live, reply.at + CONSUMED_GRACE)),
                                       sent := old(State()).sent + [BytesOf(input.keys)])
      ensures log == old(log) + [Delivered(old(State()).pending.value, reply.requestSeq, reply.response, reply.live,
                                           input, reply.at)]
    {
      hide BytesOf;
      sent := sent + [BytesOf(input.keys)];
      log := log + [Delivered(pending.value, reply.requestSeq, reply.response, reply.live, input, reply.at)];
      pending, lastOutcome := None, Some(Consumed);
      lastConsumed := Some(ConsumedRequest(reply.live, reply.at + CONSUMED_GRACE));
    }

    /** A text that was held back waits for its entry. */
    method HoldBack(question: string, text: string, at: Time)
      modifies `writeIn, `lifecycle
      ensures State() == old(State()).(writeIn := Some(PendingWriteIn(question, text, at + WRITE_IN_WINDOW)),
                                       lifecycle := Engaged("Opening write-in answer entry"))
    {
      writeIn := Some(PendingWriteIn(question, text, at + WRITE_IN_WINDOW));
      lifecycle := Engaged("Opening write-in answer entry");
    }

    method Engage(details: string)
      modifies `lifecycle
      ensures State() == old(State()).(lifecycle := Engaged(details))
    {
      lifecycle := Engaged(details);
    }

    lemma PendingField()
      ensures State().pending == pending
    {
    }

    method DeliverAnswer(reply: Reply, input: QuestionInput)
      requires pending.Some?
      modifies this
      ensures History() == Deliver(old(History()), reply, input)
    {
      hide State, BytesOf, Buffer, DeliveredDetails;
      PendingField();
      var answered := pending.value.generation;
      Consume(reply, input);
      if input.OpenWriteIn? && reply.live.UserQuestion? {
        HoldBack(reply.live.question, input.pendingText, reply.at);
      } else {
        Engage(DeliveredDetails(answered));
      }
      BufferEvent("progress");
    }

    method RespondWithResponse(reply: Reply) returns (error: Option<RespondError>)
      modifies this
      ensures (error, History()) == Responded(old(History()), taskId, reply)
    {
      hide EncodeForState, BytesOf, Deliver;
      if taskId != reply.taskId {
        return Some(NoSuchTask);
      }
      if !reply.alive {
        ExpirePending();
        return Some(Disconnected);
      }
      if pending.None? {
        return Some(match lastOutcome
                    case Some(Consumed) => AlreadyConsumed
                    case Some(Expired) => StateMismatch
                    case None => NotBlocked);
      }
      if reply.requestSeq.Some? && reply.requestSeq.value != pending.value.agentSeq {
        return Some(WrongRequest);
      }
      if !pending.value.state.SameRequest(reply.live) {
        current := reply.live;
        ExpirePending();
        return Some(StateMismatch);
      }
      var encoded := EncodeForState(reply.live, reply.response);
      if encoded.Err? {
        return Some(encoded.error);
      }
      if !reply.accepted {
        lifecycle, pending, lastOutcome := Exited, None, Some(Expired);
        return Some(Disconnected);
      }
      DeliverAnswer(reply, encoded.value);
      error := None;
    }

    method StartPrompt(prompt: string, accepted: bool) returns (ok: bool)
      modifies this
      ensures ok == accepted && History() == PromptStarted(old(History()), prompt, accepted)
    {
      if !accepted {
        return false;
      }
      sent := sent + [PromptBytes(prompt)];
      log := log + [Prompted(PromptBytes(prompt))];
      activePrompt := Some(prompt);
      lifecycle, current := Engaged("Executing prompt: " + prompt), Busy("Executing prompt: " + prompt);
      BufferEvent("progress");
      ok := true;
    }
  }

  function Fresh(initialPrompt: Option<string>): Trace {
    Trace(Session(Uninitialized, 0, Initializing, [], 0, None, None, None, None, initialPrompt, []), [], [])
  }
}
