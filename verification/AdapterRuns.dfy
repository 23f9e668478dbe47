/** Whole runs of the adapter, with arbitrary screens, clocks and terminal failures. */
module AdapterRuns {
  import opened Types
  import opened Screens
  import opened Questions
  import opened InputEncoder
  import opened Adapters

  datatype Input =
    | PollAt(seen: Option<Sight>, now: Time, accepted: bool, alive: bool)
    | Answer(reply: Reply)
    | Prompt(prompt: string, accepted: bool)

  function Step(t: Trace, taskId: TaskId, input: Input): Trace {
    match input
    case PollAt(seen, now, accepted, alive) => Polled(t, seen, now, accepted, alive)
    case Answer(reply) => Responded(t, taskId, reply).1
    case Prompt(prompt, accepted) => PromptStarted(t, prompt, accepted)
  }

  function Run(taskId: TaskId, initialPrompt: Option<string>, inputs: seq<Input>): Trace {
    if inputs == [] then Fresh(initialPrompt)
    else Step(Run(taskId, initialPrompt, inputs[..|inputs| - 1]), taskId, inputs[|inputs| - 1])
  }

  // ---- what a log says -------------------------------------------------------------------------------

  /** The latest announcement, if nothing has been delivered since. */
  function Slot(log: seq<Happening>): Option<PendingRequest> {
    if log == [] then None
    else SlotAfter(Slot(log[..|log| - 1]), log[|log| - 1])
  }

  function SlotAfter(slot: Option<PendingRequest>, h: Happening): Option<PendingRequest> {
    match h
    case Announced(agentSeq, asked, _) => Some(PendingRequest(asked.generation, agentSeq, asked.state))
    case Delivered(_, _, _, _, _, _) => None
    case _ => slot
  }

  /** A delivered answer that only opened a text entry. */
  predicate Opens(h: Happening) {
    h.Delivered? && h.input.OpenWriteIn? && h.live.UserQuestion?
  }

  /** The latest answer that opened a text entry, if nothing has been typed in since. */
  function Opened(log: seq<Happening>): Option<Happening> {
    if log == [] then None
    else OpenedAfter(Opened(log[..|log| - 1]), log[|log| - 1])
  }

  function OpenedAfter(held: Option<Happening>, h: Happening): Option<Happening> {
    if Opens(h) then Some(h) else if h.TypedIn? then None else held
  }

  /** The latest answer, if nothing has been announced since. */
  function Settled(log: seq<Happening>): Option<Happening> {
    if log == [] then None
    else SettledAfter(Settled(log[..|log| - 1]), log[|log| - 1])
  }

  function SettledAfter(settled: Option<Happening>, h: Happening): Option<Happening> {
    if h.Delivered? || h.TypedIn? then Some(h) else if h.Announced? then None else settled
  }

  /** The announced requests, in order. */
  function Announcements(log: seq<Happening>): seq<(nat, Asked)> {
    if log == [] then []
    else Announcements(log[..|log| - 1]) + Announcing(log[|log| - 1])
  }

  function Announcing(h: Happening): seq<(nat, Asked)> {
    if h.Announced? then [(h.agentSeq, h.asked)] else []
  }

  /** The byte strings that the terminal accepted, in order. */
  function Wire(log: seq<Happening>): seq<seq<Byte>> {
    if log == [] then []
    else Wire(log[..|log| - 1]) + Wiring(log[|log| - 1])
  }

  function Wiring(h: Happening): seq<seq<Byte>> {
    match h
    case Announced(_, _, _) => []
    case Delivered(_, _, _, _, input, _) => [BytesOf(input.keys)]
    case TypedIn(_, _, keys, _) => [BytesOf(keys)]
    case Prompted(bytes) => [bytes]
  }

  /** The requests among events, in order. */
  function Asks(out: seq<Output>): seq<(nat, Asked)> {
    if out == [] then []
    else Asks(out[..|out| - 1]) + Asking(out[|out| - 1])
  }

  function Asking(o: Output): seq<(nat, Asked)> {
    if o.asked.Some? then [(o.agentSeq, o.asked.value)] else []
  }

  /** The latest request announced was answered. */
  predicate Answered(log: seq<Happening>) {
    Announcements(log) != [] && Slot(log).None?
  }

  // what was on screen, and when, as far as an answer is concerned
  function LiveOf(h: Happening): AgentState {
    if h.Delivered? || h.TypedIn? then h.live else Initializing
  }

  function AtOf(h: Happening): Time {
    if h.Delivered? || h.TypedIn? then h.at else 0
  }

  ghost predicate Follows(before: seq<Happening>, h: Happening) {
    match h
    case Announced(_, asked, at) =>
      && asked.generation == |Announcements(before)| + 1
      && (Settled(before).Some? && LiveOf(Settled(before).value).SameRequest(asked.state) ==>
            at >= AtOf(Settled(before).value) + CONSUMED_GRACE)
    case Delivered(request, requestSeq, response, live, input, _) =>
      && Slot(before).Some?
      && Slot(before).value.generation == request.generation
      && Slot(before).value.agentSeq == request.agentSeq
      && Slot(before).value.state.SameRequest(live)
      && (requestSeq.Some? ==> requestSeq.value == request.agentSeq)
      && EncodeForState(live, response) == Ok(input)
    case TypedIn(text, live, keys, at) =>
      && Opened(before).Some?
      && var opener := Opened(before).value;
         && Opens(opener) && opener.input.pendingText == text && at <= opener.at + WRITE_IN_WINDOW
         && live.UserQuestion? && live.question == opener.live.question && live.controls.FreeText?
         && ValidText(text) && keys == Retype(live.controls.currentText, text)
    case Prompted(_) => true
  }

  ghost predicate Orderly(log: seq<Happening>) {
    log == [] || (Orderly(log[..|log| - 1]) && Follows(log[..|log| - 1], log[|log| - 1]))
  }

  lemma Extend(log: seq<Happening>, h: Happening)
    ensures var longer := log + [h];
            && Slot(longer) == SlotAfter(Slot(log), h)
            && Opened(longer) == OpenedAfter(Opened(log), h)
            && Settled(longer) == SettledAfter(Settled(log), h)
            && Announcements(longer) == Announcements(log) + Announcing(h)
            && Wire(longer) == Wire(log) + Wiring(h)
            && (Orderly(longer) <==> Orderly(log) && Follows(log, h))
  {
    hide Follows;
    assert (log + [h])[..|log|] == log;
  }

  // ---- the invariant ---------------------------------------------------------------------------------

  /** The adapter's slots, read off the log. */
  ghost predicate Slots(s: Session, log: seq<Happening>) {
    && (s.pending.Some? ==>
          && Slot(log).Some?
          && Slot(log).value.generation == s.pending.value.generation
          && Slot(log).value.agentSeq == s.pending.value.agentSeq
          && Slot(log).value.state.SameRequest(s.pending.value.state))
    && (s.pending.None? ==>
          s.lastOutcome == if Announcements(log) == [] then None
                           else if Answered(log) then Some(Consumed) else Some(Expired))
    && s.generation == |Announcements(log)|
    && s.lastConsumed == (if Settled(log).None? then None
                          else Some(ConsumedRequest(LiveOf(Settled(log).value), AtOf(Settled(log).value) + CONSUMED_GRACE)))
    && (s.writeIn.Some? ==>
          && Opened(log).Some? && Opens(Opened(log).value)
          && var opener := Opened(log).value;
             s.writeIn.value == PendingWriteIn(opener.live.question, opener.input.pendingText,
                                               opener.at + WRITE_IN_WINDOW))
  }

  ghost predicate Numbered(t: Trace) {
    && |t.out + t.s.buffered| == t.s.agentSeq
    && (forall i :: 0 <= i < t.s.agentSeq ==> (t.out + t.s.buffered)[i].agentSeq == i + 1)
    && (forall o :: o in t.s.buffered ==> o.asked.None?)
  }

  ghost predicate Sound(t: Trace) {
    && Slots(t.s, t.log)
    && Numbered(t)
    && Orderly(t.log)
    && Asks(t.out) == Announcements(t.log)
    && t.s.sent == Wire(t.log)
  }

  /** During a poll everything raised is handed out at once. */
  ghost predicate SoundInPoll(t: Trace) {
    Sound(t) && t.s.buffered == []
  }

  /** Fields that no property depends on, and a held-back text that may be dropped. */
  ghost predicate Eased(s: Session, now: Session) {
    && now == s.(lifecycle := now.lifecycle, current := now.current, activePrompt := now.activePrompt,
                 writeIn := now.writeIn)
    && (now.writeIn == s.writeIn || now.writeIn.None?)
  }

  lemma EasedKeeps(t: Trace, s: Session)
    requires Sound(t) && Eased(t.s, s)
    ensures Sound(t.(s := s))
  {
    hide Orderly, Wire, Announcements, Asks, Slot, Settled, Opened;
    var u := t.(s := s);
    assert u.s.buffered == t.s.buffered;
  }

  lemma SlotAnnounced(log: seq<Happening>)
    requires Orderly(log) && Slot(log).Some?
    ensures Announcements(log) != []
    ensures var r := Slot(log).value;
            && r.generation == |Announcements(log)|
            && Announcements(log)[|Announcements(log)| - 1] == (r.agentSeq, Asked(r.generation, r.state))
  {
  }

  lemma ExpireKeeps(t: Trace)
    requires Sound(t)
    ensures Sound(t.(s := WithExpired(t.s)))
  {
    hide Orderly, Wire, Announcements, Asks, Slot, Settled, Opened;
    if t.s.pending.Some? {
      SlotAnnounced(t.log);
    }
  }

  lemma AsksAppend(out: seq<Output>, o: Output)
    ensures Asks(out + [o]) == Asks(out) + Asking(o)
  {
    assert (out + [o])[..|out|] == out;
  }

  lemma NumberedRaise(t: Trace, kind: string, asked: Option<Asked>)
    requires Numbered(t) && t.s.buffered == []
    ensures Numbered(Raise(t, kind, asked)) && Raise(t, kind, asked).s.buffered == []
  {
    var u := Raise(t, kind, asked);
    assert t.out + t.s.buffered == t.out && u.out + u.s.buffered == u.out;
  }

  lemma RaiseKeeps(t: Trace, kind: string)
    requires SoundInPoll(t)
    ensures SoundInPoll(Raise(t, kind, None))
  {
    hide Orderly, Wire, Announcements, Asks, Slot, Settled, Opened, Numbered;
    NumberedRaise(t, kind, None);
    AsksAppend(t.out, Output(t.s.agentSeq + 1, kind, None));
    assert Asks(t.out) + [] == Asks(t.out);
  }

  lemma BufferKeeps(t: Trace, kind: string)
    requires Sound(t)
    ensures Sound(Buffer(t, kind))
  {
    hide Orderly, Wire, Announcements, Asks, Slot, Settled, Opened;
    var u := Buffer(t, kind);
    assert u.out + u.s.buffered == (t.out + t.s.buffered) + [Output(t.s.agentSeq + 1, kind, None)];
  }

  // ---- requests --------------------------------------------------------------------------------------

  lemma AnnounceSlots(t: Trace, detected: AgentState, now: Time)
    requires Sound(t) && detected.IsBlocking()
    ensures var u := Announce(t, detected, now); Slots(u.s, u.log)
  {
    hide Orderly, Wire, Asks, Announcements, Slot, Settled, Opened, Numbered;
    var u := Announce(t, detected, now);
    Extend(t.log, u.log[|t.log|]);
  }

  lemma AnnounceKeeps(t: Trace, detected: AgentState, now: Time)
    requires SoundInPoll(t) && detected.IsBlocking() && !Lingering(t.s, detected, now)
    ensures SoundInPoll(Announce(t, detected, now))
  {
    hide Orderly, Wire, Asks, Announcements, Slot, Settled, Opened, Numbered;
    AnnounceSlots(t, detected, now);
    var u := Announce(t, detected, now);
    Extend(t.log, u.log[|t.log|]);
    assert Numbered(u) by {
      NumberedRaise(t, RequestKind(detected), Some(u.log[|t.log|].asked));
      NumberedSame(Raise(t, RequestKind(detected), Some(u.log[|t.log|].asked)), u);
    }
    AsksAppend(t.out, u.out[|t.out|]);
    assert Wire(t.log) + [] == Wire(t.log);
  }

  lemma NumberedSame(t: Trace, u: Trace)
    requires Numbered(t) && u.out == t.out && u.s.buffered == t.s.buffered && u.s.agentSeq == t.s.agentSeq
    ensures Numbered(u)
  {
  }

  lemma OpenedKeeps(t: Trace, detected: AgentState, now: Time)
    requires SoundInPoll(t) && detected.IsBlocking()
    ensures SoundInPoll(OpenedRequest(t, detected, now))
  {
    hide Orderly, Wire, Asks, Announcements, Slot, Settled, Opened, Announce;
    if t.s.pending.Some? && t.s.pending.value.state.SameRequest(detected) {
      var r := Slot(t.log).value.state;
      SameRequestEquivalence(r, t.s.pending.value.state, detected);
    } else if !Lingering(t.s, detected, now) {
      AnnounceKeeps(t, detected, now);
    }
  }

  // ---- write-ins -------------------------------------------------------------------------------------

  lemma TypeKeeps(t: Trace, detected: AgentState, now: Time)
    requires SoundInPoll(t) && EntryShown(t.s, detected)
    requires now <= t.s.writeIn.value.deadline && detected.question == t.s.writeIn.value.question
    requires ValidText(t.s.writeIn.value.text)
    ensures SoundInPoll(TypeText(t, detected, now))
  {
    hide Orderly, Wire, Asks, Announcements, Slot, Settled, Opened, ValidText, Retype, BytesOf;
    var u := TypeText(t, detected, now);
    Extend(t.log, u.log[|t.log|]);
    assert Announcements(t.log) + [] == Announcements(t.log);
    assert Numbered(u) by { NumberedSame(t, u); }
  }

  lemma CompletedKeeps(t: Trace, detected: AgentState, now: Time, accepted: bool)
    requires SoundInPoll(t)
    ensures SoundInPoll(CompletedWriteIn(t, detected, now, accepted).1)
  {
    hide Sound, TypeText, ValidText;
    EasedKeeps(t, t.s.(writeIn := None));
    EasedKeeps(t, t.s.(writeIn := None, lifecycle := Exited));
    if CompletedWriteIn(t, detected, now, accepted) == (true, t) {
    } else if EntryShown(t.s, detected) && now <= t.s.writeIn.value.deadline
              && detected.question == t.s.writeIn.value.question && ValidText(t.s.writeIn.value.text) {
      TypeKeeps(t, detected, now);
    }
  }

  // ---- polls -----------------------------------------------------------------------------------------

  lemma UnblockedKeeps(t: Trace, seen: Sight)
    requires SoundInPoll(t)
    ensures SoundInPoll(Unblocked(t, seen))
  {
    hide Sound, Raise;
    var u := Unblocked(t, seen);
    forall s | Eased(t.s, s) ensures SoundInPoll(t.(s := s)) {
      EasedKeeps(t, s);
    }
    forall v: Trace, kind | SoundInPoll(v) ensures SoundInPoll(Raise(v, kind, None)) {
      RaiseKeeps(v, kind);
    }
  }

  lemma TransitionKeeps(t: Trace, seen: Sight, now: Time, accepted: bool)
    requires SoundInPoll(t)
    ensures SoundInPoll(Transition(t, seen, now, accepted))
  {
    hide Sound, CompletedWriteIn, OpenedRequest, Unblocked;
    if seen.state.IsBlocking() {
      CompletedKeeps(t, seen.state, now, accepted);
      OpenedKeeps(CompletedWriteIn(t, seen.state, now, accepted).1, seen.state, now);
    } else {
      ExpireKeeps(t);
      UnblockedKeeps(t.(s := WithExpired(t.s)), seen);
    }
  }

  lemma StartedKeeps(t: Trace)
    requires Sound(t)
    ensures SoundInPoll(Started(t))
  {
    hide Orderly, Wire, Announcements, Slot, Settled, Opened, Raise, Asks;
    var taken := t.(s := t.s.(buffered := []), out := t.out + t.s.buffered);
    assert taken.out + taken.s.buffered == t.out + t.s.buffered;
    AsksOfBuffered(t.out, t.s.buffered);
    var starting := taken.s.(lifecycle := Starting);
    EasedKeeps(taken, starting);
    RaiseKeeps(taken.(s := starting), "started");
  }

  lemma {:induction false} AsksOfBuffered(out: seq<Output>, buffered: seq<Output>)
    requires forall o :: o in buffered ==> o.asked.None?
    ensures Asks(out + buffered) == Asks(out)
  {
    hide Asks;
    if buffered == [] {
      assert out + buffered == out;
    } else {
      var init, last := buffered[..|buffered| - 1], buffered[|buffered| - 1];
      AsksOfBuffered(out, init);
      assert out + buffered == (out + init) + [last];
      AsksAppend(out + init, last);
    }
  }

  lemma WatchedKeeps(t: Trace, alive: bool)
    requires SoundInPoll(t)
    ensures SoundInPoll(Watched(t, alive))
  {
    hide Sound, Raise;
    ExpireKeeps(t);
    var expired := t.(s := WithExpired(t.s));
    var gone := expired.s.(lifecycle := Exited, writeIn := None);
    EasedKeeps(expired, gone);
    RaiseKeeps(expired.(s := gone), "adapter_error");
  }

  lemma PolledKeeps(t: Trace, seen: Option<Sight>, now: Time, accepted: bool, alive: bool)
    requires Sound(t)
    ensures Sound(Polled(t, seen, now, accepted, alive))
  {
    hide Sound, Started, Transition, OpenedRequest, Watched;
    StartedKeeps(t);
    var started := Started(t);
    if seen.Some? {
      var noticed := started.s.(current := seen.value.state);
      EasedKeeps(started, noticed);
      TransitionKeeps(started.(s := noticed), seen.value, now, accepted);
    }
    var looked := Looked(started, seen, now, accepted);
    EasedKeeps(looked, Lapsed(looked.s, now));
    var lapsed := looked.(s := Lapsed(looked.s, now));
    if lapsed.s.current.IsBlocking() {
      OpenedKeeps(lapsed, lapsed.s.current, now);
    }
    WatchedKeeps(Reopened(lapsed, now), alive);
  }

  // ---- responses and prompts -------------------------------------------------------------------------

  lemma DeliverKeeps(t: Trace, reply: Reply, input: QuestionInput)
    requires Sound(t) && t.s.pending.Some?
    requires reply.requestSeq.Some? ==> reply.requestSeq.value == t.s.pending.value.agentSeq
    requires t.s.pending.value.state.SameRequest(reply.live)
    requires EncodeForState(reply.live, reply.response) == Ok(input)
    ensures Sound(Deliver(t, reply, input))
  {
    hide Orderly, Wire, Asks, Announcements, Slot, Settled, Opened, EncodeForState, BytesOf, Buffer, Numbered;
    var h := Delivered(t.s.pending.value, reply.requestSeq, reply.response, reply.live, input, reply.at);
    Extend(t.log, h);
    SameRequestEquivalence(Slot(t.log).value.state, t.s.pending.value.state, reply.live);
    SlotAnnounced(t.log);
    assert Announcements(t.log) + [] == Announcements(t.log);
    var s := t.s.(pending := None, lastOutcome := Some(Consumed),
                  lastConsumed := Some(ConsumedRequest(reply.live, reply.at + CONSUMED_GRACE)),
                  sent := t.s.sent + [BytesOf(input.keys)]);
    var engaged :=
      if input.OpenWriteIn? && reply.live.UserQuestion? then
        s.(writeIn := Some(PendingWriteIn(reply.live.question, input.pendingText, reply.at + WRITE_IN_WINDOW)),
           lifecycle := Engaged("Opening write-in answer entry"))
      else s.(lifecycle := Engaged(DeliveredDetails(t.s.pending.value.generation)));
    var u := Trace(engaged, t.out, t.log + [h]);
    assert Numbered(u) by { NumberedSame(t, u); }
    assert Slots(engaged, t.log + [h]);
    BufferKeeps(u, "progress");
  }

  lemma RespondedKeeps(t: Trace, taskId: TaskId, reply: Reply)
    requires Sound(t)
    ensures Sound(Responded(t, taskId, reply).1)
  {
    hide Orderly, Wire, Asks, Announcements, Slot, Settled, Opened, EncodeForState, Deliver;
    ExpireKeeps(t);
    var mismatched := t.s.(current := reply.live);
    EasedKeeps(t, mismatched);
    ExpireKeeps(t.(s := mismatched));
    var broken := WithExpired(t.s).(lifecycle := Exited);
    EasedKeeps(t.(s := WithExpired(t.s)), broken);
    var input := EncodeForState(reply.live, reply.response);
    if Responded(t, taskId, reply).0.None? {
      DeliverKeeps(t, reply, input.value);
    }
  }

  lemma PromptKeeps(t: Trace, prompt: string, accepted: bool)
    requires Sound(t)
    ensures Sound(PromptStarted(t, prompt, accepted))
  {
    hide Orderly, Wire, Asks, Announcements, Slot, Settled, Opened, PromptBytes, Buffer, Numbered;
    if accepted {
      var details := "Executing prompt: " + prompt;
      var h := Prompted(PromptBytes(prompt));
      Extend(t.log, h);
      var s := t.s.(activePrompt := Some(prompt), lifecycle := Engaged(details), current := Busy(details),
                    sent := t.s.sent + [PromptBytes(prompt)]);
      var u := Trace(s, t.out, t.log + [h]);
      assert Announcements(t.log) + [] == Announcements(t.log);
      assert Numbered(u) by { NumberedSame(t, u); }
      BufferKeeps(u, "progress");
    }
  }

  lemma StepKeeps(t: Trace, taskId: TaskId, input: Input)
    requires Sound(t)
    ensures Sound(Step(t, taskId, input))
  {
    hide Sound, Polled, Responded, PromptStarted;
    match input
    case PollAt(seen, now, accepted, alive) => PolledKeeps(t, seen, now, accepted, alive);
    case Answer(reply) => RespondedKeeps(t, taskId, reply);
    case Prompt(prompt, accepted) => PromptKeeps(t, prompt, accepted);
  }

  lemma {:induction false} RunSound(taskId: TaskId, initialPrompt: Option<string>, inputs: seq<Input>)
    ensures Sound(Run(taskId, initialPrompt, inputs))
  {
    hide Step;
    if inputs != [] {
      RunSound(taskId, initialPrompt, inputs[..|inputs| - 1]);
      StepKeeps(Run(taskId, initialPrompt, inputs[..|inputs| - 1]), taskId, inputs[|inputs| - 1]);
    }
  }

  // ---- what it means ---------------------------------------------------------------------------------

  lemma {:induction false} EntryFollows(log: seq<Happening>, i: nat)
    requires Orderly(log) && i < |log|
    ensures Orderly(log[..i]) && Follows(log[..i], log[i])
  {
    hide Follows;
    var init := log[..|log| - 1];
    if i < |init| {
      EntryFollows(init, i);
      assert init[..i] == log[..i];
    }
  }

  lemma {:induction false} AnnouncementsGrow(log: seq<Happening>, i: nat)
    requires i <= |log|
    ensures |Announcements(log[..i])| <= |Announcements(log)|
    ensures Announcements(log[..i]) == Announcements(log)[..|Announcements(log[..i])|]
  {
    if i == |log| {
      assert log[..i] == log;
    } else {
      var init := log[..|log| - 1];
      AnnouncementsGrow(init, i);
      assert init[..i] == log[..i];
    }
  }

  /** Events are numbered without a gap, in the order they are handed out, and requests likewise: the
      request events among them carry the generations 1, 2, 3 and so on. */
  lemma EventsAndRequestsNumbered(taskId: TaskId, initialPrompt: Option<string>, inputs: seq<Input>)
    ensures var t := Run(taskId, initialPrompt, inputs);
            && (forall i :: 0 <= i < |t.out| ==> t.out[i].agentSeq == i + 1)
            && |t.out| + |t.s.buffered| == t.s.agentSeq
            && |Asks(t.out)| == t.s.generation
            && (forall g :: 0 <= g < |Asks(t.out)| ==> Asks(t.out)[g].1.generation == g + 1)
  {
    hide Slots, Announcements, Asks, Orderly;
    RunSound(taskId, initialPrompt, inputs);
    var t := Run(taskId, initialPrompt, inputs);
    forall i | 0 <= i < |t.out| ensures t.out[i].agentSeq == i + 1 {
      assert (t.out + t.s.buffered)[i] == t.out[i];
    }
    GenerationsCount(t.log);
    assert t.s.generation == |Announcements(t.log)| by { assert Slots(t.s, t.log); SlotsCount(t.s, t.log); }
  }

  lemma SlotsCount(s: Session, log: seq<Happening>)
    requires Slots(s, log)
    ensures s.generation == |Announcements(log)|
  {
  }

  lemma {:induction false} GenerationsCount(log: seq<Happening>)
    requires Orderly(log)
    ensures forall g :: 0 <= g < |Announcements(log)| ==> Announcements(log)[g].1.generation == g + 1
  {
    if log != [] {
      GenerationsCount(log[..|log| - 1]);
    }
  }

  lemma {:induction false} DeliveredBelow(log: seq<Happening>, i: nat)
    requires Orderly(log) && i < |log| && log[i].Delivered?
    ensures log[i].request.generation <= |Announcements(log)|
    ensures Slot(log).Some? ==> log[i].request.generation < Slot(log).value.generation
  {
    var init, last := log[..|log| - 1], log[|log| - 1];
    if i < |init| {
      DeliveredBelow(init, i);
    } else {
      SlotAnnounced(init);
    }
  }

  /** Each request is answered at most once, and answers come in the order of their requests. */
  lemma OneAnswerEach(taskId: TaskId, initialPrompt: Option<string>, inputs: seq<Input>, i: nat, j: nat)
    requires var log := Run(taskId, initialPrompt, inputs).log; i < j < |log| && log[i].Delivered? && log[j].Delivered?
    ensures var log := Run(taskId, initialPrompt, inputs).log;
            log[i].request.generation < log[j].request.generation
  {
    hide Run;
    RunSound(taskId, initialPrompt, inputs);
    var log := Run(taskId, initialPrompt, inputs).log;
    EntryFollows(log, j);
    assert log[..j][i] == log[i];
    DeliveredBelow(log[..j], i);
  }

  lemma {:induction false} AsksAreHandedOut(out: seq<Output>, g: nat)
    requires g < |Asks(out)|
    ensures exists o :: o in out && o.agentSeq == Asks(out)[g].0 && o.asked == Some(Asks(out)[g].1)
  {
    var init, last := out[..|out| - 1], out[|out| - 1];
    if g < |Asks(init)| {
      AsksAreHandedOut(init, g);
    } else {
      assert last in out && Asking(last) == [Asks(out)[g]];
    }
  }

  /** An answer goes to the request it names: the event with that number was handed out, it announced this
      very request, and the screen still showed it when the keys were typed. Any answer goes to the latest
      request. */
  lemma AnswersReachTheirRequest(taskId: TaskId, initialPrompt: Option<string>, inputs: seq<Input>, j: nat)
      returns (o: Output)
    requires var log := Run(taskId, initialPrompt, inputs).log; j < |log| && log[j].Delivered?
    ensures var t := Run(taskId, initialPrompt, inputs);
            var d := t.log[j];
            && o in t.out && o.agentSeq == d.request.agentSeq
            && (d.requestSeq.Some? ==> o.agentSeq == d.requestSeq.value)
            && o.asked.Some? && o.asked.value.generation == d.request.generation
            && o.asked.value.generation == |Announcements(t.log[..j])|
            && o.asked.value.state.SameRequest(d.live)
            && EncodeForState(d.live, d.response) == Ok(d.input)
  {
    hide Run, EncodeForState, Announcements, Slot, Slots, Orderly;
    RunSound(taskId, initialPrompt, inputs);
    var t := Run(taskId, initialPrompt, inputs);
    var before := t.log[..j];
    EntryFollows(t.log, j);
    SlotAnnounced(before);
    AnnouncementsGrow(t.log, j);
    var g := |Announcements(before)| - 1;
    assert Announcements(t.log)[g] == Announcements(before)[g];
    AsksAreHandedOut(t.out, g);
    o :| o in t.out && o.agentSeq == Asks(t.out)[g].0 && o.asked == Some(Asks(t.out)[g].1);
  }

  lemma {:induction false} OpenedWhen(log: seq<Happening>) returns (i: nat)
    requires Opened(log).Some?
    ensures i < |log| && log[i] == Opened(log).value && Opens(log[i])
    ensures forall m :: i < m < |log| ==> !log[m].TypedIn? && !Opens(log[m])
  {
    var init, last := log[..|log| - 1], log[|log| - 1];
    if Opens(last) {
      i := |init|;
    } else {
      i := OpenedWhen(init);
      assert forall m :: i < m < |init| ==> log[m] == init[m];
    }
  }

  /** A held-back text is typed at most once: between the answer that held it back and the typing there is
      neither another typing nor another such answer. It is typed unchanged, into the text entry of the
      same question, before its deadline. */
  lemma WriteInTypedOnce(taskId: TaskId, initialPrompt: Option<string>, inputs: seq<Input>, j: nat) returns (i: nat)
    requires var log := Run(taskId, initialPrompt, inputs).log; j < |log| && log[j].TypedIn?
    ensures var log := Run(taskId, initialPrompt, inputs).log;
            && i < j && Opens(log[i])
            && (forall m :: i < m < j ==> !log[m].TypedIn? && !Opens(log[m]))
            && log[j].text == log[i].input.pendingText
            && log[j].live.UserQuestion? && log[j].live.question == log[i].live.question
            && log[j].live.controls.FreeText?
            && log[j].at <= log[i].at + 10_000_000_000
            && log[j].keys == Retype(log[j].live.controls.currentText, log[i].input.pendingText)
            && ValidText(log[i].input.pendingText)
  {
    hide Run, Slots, Wire, Retype, ValidText;
    RunSound(taskId, initialPrompt, inputs);
    var log := Run(taskId, initialPrompt, inputs).log;
    EntryFollows(log, j);
    i := OpenedWhen(log[..j]);
    assert forall m :: i <= m < j ==> log[..j][m] == log[m];
  }

  lemma {:induction false} SettledBy(log: seq<Happening>, i: nat)
    requires i < |log| && (log[i].Delivered? || log[i].TypedIn?)
    requires forall m :: i < m < |log| ==> log[m].Prompted?
    ensures Settled(log) == Some(log[i])
  {
    var init := log[..|log| - 1];
    if i < |init| {
      SettledBy(init, i);
    }
  }

  /** A dialog that was just answered is not announced again before its grace period is over, unless
      something else was announced or answered meanwhile. */
  lemma GraceRespected(taskId: TaskId, initialPrompt: Option<string>, inputs: seq<Input>, i: nat, j: nat)
    requires var log := Run(taskId, initialPrompt, inputs).log;
             && i < j < |log| && (log[i].Delivered? || log[i].TypedIn?) && log[j].Announced?
             && (forall m :: i < m < j ==> log[m].Prompted?)
             && log[i].live.SameRequest(log[j].asked.state)
    ensures var log := Run(taskId, initialPrompt, inputs).log; log[j].at >= log[i].at + 5_000_000_000
  {
    hide Run, Slots, Wire;
    RunSound(taskId, initialPrompt, inputs);
    var log := Run(taskId, initialPrompt, inputs).log;
    EntryFollows(log, j);
    assert log[..j][i] == log[i];
    SettledBy(log[..j], i);
  }

  /** Nothing reaches the terminal but the keys of answers, held-back texts and prompts, in order. */
  lemma OnlyAnswersAreTyped(taskId: TaskId, initialPrompt: Option<string>, inputs: seq<Input>)
    ensures var t := Run(taskId, initialPrompt, inputs); t.s.sent == Wire(t.log)
  {
    RunSound(taskId, initialPrompt, inputs);
  }

  lemma EncodeErrors(live: AgentState, response: RequestResponse)
    requires live.IsBlocking() && EncodeForState(live, response).Err?
    ensures EncodeForState(live, response).error in {StateMismatch, InvalidResponse}
  {
    hide MultiKeys, ResolveOption, MenuTarget, ValidText, Select, Retype;
    match response
    case SelectOption(option) => MultiErrors([option], live);
    case SelectMultiple(options) => MultiErrors(options, live);
    case _ =>
  }

  lemma MultiErrors(wanted: seq<string>, live: AgentState)
    ensures live.UserQuestion? && MultiKeys(wanted, live.controls).Err? ==>
              MultiKeys(wanted, live.controls).error == InvalidResponse
  {
  }

  /** Refusals tell the truth about the past: a live adapter says that the request was already answered
      exactly when the latest request was answered, and that it was not waiting exactly when it never asked;
      and a refused response types nothing, raises nothing and leaves the history as it was. */
  lemma RefusalsTellTheTruth(taskId: TaskId, initialPrompt: Option<string>, inputs: seq<Input>, reply: Reply)
    requires reply.taskId == taskId && reply.alive
    ensures var t := Run(taskId, initialPrompt, inputs);
            var (error, u) := Responded(t, taskId, reply);
            && (error == Some(AlreadyConsumed) <==> Answered(t.log))
            && (error == Some(NotBlocked) <==> Announcements(t.log) == [])
            && (error.Some? ==> u.log == t.log && u.out == t.out && u.s.sent == t.s.sent && u.s.buffered == t.s.buffered)
            && (error.None? ==> |u.log| == |t.log| + 1 && u.s.pending.None?)
  {
    hide Run, EncodeForState, Announcements, Slot, Settled, Opened, Wire, Orderly;
    RunSound(taskId, initialPrompt, inputs);
    var t := Run(taskId, initialPrompt, inputs);
    if t.s.pending.Some? {
      SlotAnnounced(t.log);
      SameRequestEquivalence(t.s.pending.value.state, reply.live, reply.live);
      if reply.live.IsBlocking() && EncodeForState(reply.live, reply.response).Err? {
        EncodeErrors(reply.live, reply.response);
      }
    }
  }

  lemma {:induction false} NeverFinished(taskId: TaskId, initialPrompt: Option<string>, inputs: seq<Input>)
    ensures !Run(taskId, initialPrompt, inputs).s.lifecycle.Finished?
  {
    hide Step;
    if inputs != [] {
      NeverFinished(taskId, initialPrompt, inputs[..|inputs| - 1]);
      StepNotFinished(Run(taskId, initialPrompt, inputs[..|inputs| - 1]), taskId, inputs[|inputs| - 1]);
    }
  }

  lemma StepNotFinished(t: Trace, taskId: TaskId, input: Input)
    requires !t.s.lifecycle.Finished?
    ensures !Step(t, taskId, input).s.lifecycle.Finished?
  {
    hide EncodeForState, BytesOf, PromptBytes, Transition, OpenedRequest, Watched, Started;
    match input
    case PollAt(seen, now, accepted, alive) =>
      var started := Started(t);
      assert !started.s.lifecycle.Finished? by { StartedNotFinished(t); }
      if seen.Some? {
        TransitionNotFinished(started.(s := started.s.(current := seen.value.state)), seen.value, now, accepted);
      }
      var looked := Looked(started, seen, now, accepted);
      var lapsed := looked.(s := Lapsed(looked.s, now));
      OpenedNotFinished(lapsed, lapsed.s.current, now);
      WatchedNotFinished(Reopened(lapsed, now), alive);
    case Answer(_) =>
    case Prompt(_, _) =>
  }

  lemma StartedNotFinished(t: Trace)
    requires !t.s.lifecycle.Finished?
    ensures !Started(t).s.lifecycle.Finished?
  {
  }

  lemma WatchedNotFinished(t: Trace, alive: bool)
    requires !t.s.lifecycle.Finished?
    ensures !Watched(t, alive).s.lifecycle.Finished?
  {
  }

  lemma OpenedNotFinished(t: Trace, detected: AgentState, now: Time)
    requires !t.s.lifecycle.Finished?
    ensures !OpenedRequest(t, detected, now).s.lifecycle.Finished?
  {
  }

  lemma TransitionNotFinished(t: Trace, seen: Sight, now: Time, accepted: bool)
    requires !t.s.lifecycle.Finished?
    ensures !Transition(t, seen, now, accepted).s.lifecycle.Finished?
  {
    hide OpenedRequest, BytesOf, Retype, ValidText;
    OpenedNotFinished(CompletedWriteIn(t, seen.state, now, accepted).1, seen.state, now);
  }

  lemma RunSnoc(taskId: TaskId, initialPrompt: Option<string>, inputs: seq<Input>, input: Input)
    ensures Run(taskId, initialPrompt, inputs + [input]) == Step(Run(taskId, initialPrompt, inputs), taskId, input)
  {
    assert (inputs + [input])[..|inputs|] == inputs;
  }
}
