# AgentDesk in Dafny

AgentDesk lets a person supervise coding agents from a phone. A desktop core turns what the agents emit into an
ordered queue of events that need attention, keeps every connected client in step with that queue, and carries the
human's answers back to the agents. This project models the core, the pieces around it that carry state, and proves
what they promise.

`dafny verify dfyconfig.toml` checks everything.

## What is modelled

**The attention pipeline** (`Types`, `Ordering`, `Scoring`, `Classifier`, `PriorityQueue`, `Tracker`, `LogStore`,
`CoreMachine`, `CoreTask`). `CoreMachine` gives the meaning of one command as a function on values: the new state and
the messages sent on the way. The classes in `PriorityQueue`, `Tracker`, `LogStore` and `CoreTask` update their fields
in place as the program does and are proved equal to that function, message by message, with sinks that may take a
message, refuse it, close or fail. On the function rest the run theorems:

- `Replica`, `Coherence`, `Clients`: a client that folds the messages it received holds exactly the queue.
- `Changes`, `Losses`: which commands change which part of an entry, what a client holds that lost messages, and what a
  snapshot repairs.
- `Delivery`: the two-phase delivery of answers over a bounded channel with rollback.
- `Agreement`, `Orphans`: the tracker's lists and the queue's superseded marks say the same, and which requests escape both.
- `Watchdog`: escalation levels and scores after every tick, and how often a task is escalated.
- `Conservation`: no event and no log line is lost, stored events never change, and every event finds its own lines.
- `LogHistory`: ring buffers and pinned windows against the full, append-only history.
- `Responses`: which response a human's answer becomes, from the request to the row of the menu that is submitted.
- `Arrivals`: what becomes of each event, and that every request is answered exactly once.
- `Marks`: what each command leaves of each entry, field by field, and which counter it moves.
- `Rankings`: the order in which clients see the queue, by category, score and severity.
- `Incidents`: short runs in which the less expected things happen.

**The simulator** (`Simulator`, `Script`, `Timing`, `Scenario`, `EmptyLogs`, `Driver`). Polling granularity is
irrelevant, the driver ends for every decision policy, every task says exactly what its script and the decisions on its
requests determine, and says it exactly when the delays of its script and the drawn jitters say.

**The terminal screen** (`Canvas`, `Screen`, `Terminal`, `CanvasLaws`, `ScreenLaws`, `Layout`, `Utf8`, `CsiParams`). A
byte-driven emulator as a function on values and as a class with cell and row loops, with a law for every command that
says which cell each cell of the screen holds afterwards; UTF-8 is RFC 3629 section 3, control sequences are ECMA-48
section 5.4, the cursor position sequences are ECMA-48 sections 8.3.14 and 8.3.21.

**The response path of the terminal adapter** (`Questions`, `InputEncoder`, `MenuProof`, `Prompts`, `Adapter`,
`AdapterRuns`, `AdapterNews`, `AdapterGaps`). The encoder is a compiler from answers to keys, checked against an interpreter of menus and
text entries that reads the bytes back, in which Enter on the write-in row opens the text entry; prompts are read back by
a chat entry with bracketed paste. The adapter's pending-request protocol is a class proved against a state machine, with
theorems over all runs: which events it raises and when, and exact conditions for what it leaves unsaid.

**Two round trips** (`Base64`, section 4 of RFC 4648; `Percent` and `Pairing`, section 2.1 of RFC 3986).

## Assumptions

- Event ids generated for new events are fresh, and the clock handed to the core never runs backwards.
- The core runs in its `Agentdesk` mode; a terminal has at least one column and one row, and at most 65535.
- Watchdog thresholds are not negative, where a theorem says so.
- Sums and products of 16-bit cursor coordinates saturate (`Canvases.MinusClamped`, `Screens.AddDigit`); at
  `core/agentdesk-core/src/antigravity/screen.rs:385`, `:390` and `:400` the sums are taken as clamped, without wrap-around.
- Instants are integers in nanoseconds. Bytes are integers below 256; `Base64.ShiftsAreArithmetic` relates the
  arithmetic to shifts and masks of 8-bit words.
- `detect_state`, the summary extractors and the evidence of completion are arbitrary inputs (`Adapters.Sight`), as are
  random delays (`Simulators.Draws`), SGR and OSC handling (`Canvases.Styling`), sink results, and whether a terminal is
  alive and accepts bytes.
- Every adapter command that was taken is answered by one outcome. The daemon itself sends none for a task it does not
  own (`core/agentdesk-server/src/main.rs:459-462`): the attached client that owns it does. Outcomes may therefore come
  back in any order and after any time, or never; `Delivery.StrayOutcomeSettles` shows what a second outcome would do.

## Where the code does not do what one might expect

- **A displaced request can come back with nobody to close it.** A request whose task moves on while its answer is being
  delivered is not superseded; if the delivery then fails it is unresolved, live and listed by no task
  (`Agreement.OrphanedRequest`). Over every run, a request gets there exactly when the delivery of its answer fails
  while it is pending, live and not listed (`Orphans.OrphanedExactly`), which it only is if it was spared when displaced
  (`Orphans.PendingUnlistedWasSpared`). A request that was approved or denied never gets there.
  `Incidents.RequestOrphaned` is a run.
- **A client that loses a message may hold a wrong entry for as long as it stays connected**: a sink error loses the
  message and keeps the client. The queue has what the last announcement of a part of an entry said, its rank or its
  attention state; the client is right about it if and only if the last announcement of it that it took, or what it held
  before, says the same (`Losses.LossExactly`). A client that was right and misses everything a command says about a
  part goes wrong exactly when the command changes that part, which the state before decides
  (`Losses.LossHarmfulExactly`, `Changes.TouchesExactly`). It can also go wrong when the part ends as it was, if only
  the first half of a rolled-back answer arrives (`Losses.ReopeningLost`). A snapshot repairs every live entry and no other:
  what is dismissed or superseded stays as it was held, right or wrong (`Losses.SnapshotResyncs`).
  `Incidents.LostAcknowledgement` is a run.
- **An answer to a multiple choice can open the text entry instead of being submitted.** The keys end with Enter on the
  row toggled last, or where the cursor was; if that is the write-in row, Enter opens its text entry. This is so exactly
  when the write-in row is the last one with a wrong mark, or under the cursor with no mark wrong
  (`MenuProof.MultiChoiceSubmits`; `MenuProof.AnswerOpensTextEntry` is an input). Approving such a menu with the cursor
  on the write-in row does the same; only a single choice is guarded against it (`MenuProof.ApproveCorrect`).
- **Scenario validation accepts log steps without lines**, on which the simulator indexes past the end
  (`Scenarios.EmptyLogAccepted`); a validated task never gets stuck if and only if it has none
  (`EmptyLogs.StuckExactlyOnEmptyLog`). The theorems about the driver assume there are none.
- **A ring capacity of zero never evicts**: the buffer only drops a line when its length equals the capacity before the
  append. Buffers stay within the capacity for all operations if and only if it is at least one
  (`LogHistory.BoundedExactly`).
- **An unknown parameter can spoil a pairing link**, although unknown parameters are meant to be ignored: its value must
  decode (`Pairing.UnknownParameter`, `Pairing.UndecodableValue`).
- **The fingerprint of a pairing link is written as it is and read as encoded**: it survives if and only if, colons and
  spaces apart, it contains no ampersand, decodes to itself and is not blank (`Pairing.UriRoundTrip`), as fingerprints
  of hexadecimal digits do (`Pairing.HexFingerprintsTravel`).
- **Prompts are typed unchecked.** The chat entry gets exactly the prompt and one Enter if and only if a prompt of one line
  has no control character below U+0080, and one of several lines does not contain the sequence that ends a bracketed
  paste
  (`Prompts.PromptReadExactly`).
- **A prompt can be dropped without anybody noticing.** It reaches the adapter's channel if and only if that has room
  (`Delivery.PromptReachesChannel`); it is announced and confirmed in exactly the same way if not
  (`Delivery.PromptLossInvisible`).
- **Base64 decoding accepts more than canonical text**: unpadded groups, stray trailing bits, anything at all behind a
  pad (`Base64.DecodesMoreThanCanonical`), and further groups after a padded one (`Base64.ConcatenationsDecode`);
  `Base64.DecodesExactly` says what it accepts.
- **The end of the terminal can go unreported.** A poll that finds the terminal gone raises no error if and only if the
  adapter had reached its end already, through a refused send, a fatal error or an earlier such poll, and no step moved
  it on since (`AdapterGaps.ExitReportedExactly`; the steps are those of `AdapterGaps.ExitsExactly` and
  `AdapterGaps.RevivesExactly`). A refused send says nothing itself (`AdapterGaps.ExitNews`,
  `AdapterGaps.UnreportedExit`). The rule that a finished agent may exit quietly never applies, because the adapter's
  completed lifecycle state is never entered.
- **A dialog can stay on screen without anybody being asked.** A response that finds another dialog on screen takes note
  of it without announcing it; unless something was answered since the expired request was announced, no poll announces
  it for as long as it stays, and every response is refused (`AdapterGaps.DialogStranded`; runs in
  `Incidents.QuestionStranded`). `AdapterGaps.AskedExactly` says after which polls the dialog on screen is asked about.

## Model

| member | source | states |
|---|---|---|
| Scoring.ScoreInRange | core/agentdesk-core/src/scoring.rs:82-94 | Every score lies in 0..=100, whatever the entry, the event and the instant. |
| Scoring.RecencyDecays | core/agentdesk-core/src/scoring.rs:36-50 | The recency bonus never grows with age, is bounded, and is the linear decay rounded to the nearest integer, halves up, in exact real arithmetic. |
| Scoring.EscalationRaisesScore | core/agentdesk-core/src/scoring.rs:53-94 | Raising the level of a Working entry of low severity strictly raises its score, whatever happened to it meanwhile, so every escalation is announced. |
| Scoring.ScoresBySeverity | core/agentdesk-core/src/scoring.rs:24-50 | A new entry that just arrived is worth 30, 45, 65 or 90 by severity, ten less a quarter of an hour later and twenty less after half an hour; work gets no such bonus. |
| Scoring.AttentionCosts | core/agentdesk-core/src/scoring.rs:63-94 | Reading an entry costs exactly 15 and its approval or denial exactly 40, down to zero; pending delivery and dismissal cost nothing. |
| Scoring.EscalationAdds | core/agentdesk-core/src/scoring.rs:53-61 | Each of the two escalations adds exactly 30 to unread work. |
| Scoring.SeverityRaisesScore | core/agentdesk-core/src/scoring.rs:24-94 | Everything else equal, the more severe scores strictly higher unless both are clamped at the same end. |
| Classifier.FindMember | core/agentdesk-core/src/classifier.rs:104-112 | Table lookup finds a rule of exactly that kind, and fails only when there is none. |
| Classifier.SeverityByCategory | core/agentdesk-core/src/classifier.rs:39-136 | For every kind string, matched or not, the severity is one that its category admits, and only exact matches are requests. |
| Classifier.KindsClassified | core/agentdesk-core/src/classifier.rs:39-136 | The category, severity and kind of match of every kind string, by name, by ending, or as routine work. |
| Ordering.SortSorts | core/agentdesk-core/src/queue.rs:51-60 | Sorting by a total preorder gives an ordered permutation. |
| Ordering.ArrangeIsSort | core/agentdesk-core/src/queue.rs:51-60 | When the key separates the elements, sorting any duplicate-free listing of a set gives the same sequence, so the order of map iteration cannot show. |
| PriorityQueues.SnapshotIsLiveInOrder | core/agentdesk-core/src/queue.rs:51-60 | A snapshot contains exactly the live entries, strictly ordered by tier, then score, then newest first. |
| Rankings.SnapshotOrder | core/agentdesk-core/src/queue.rs:51-60 | In a snapshot every request precedes every error, every error every completion and every completion all work; within a category the higher score comes first, then the newer event. |
| Rankings.GraverFirst | core/agentdesk-core/src/scoring.rs:24-94 | Of two live entries that differ only in severity, the graver comes first in the snapshot, unless both scored zero. |
| PriorityQueues.PriorityQueue.OrderedSnapshotNow | core/agentdesk-core/src/queue.rs:51-60 | The collecting loop and sort compute that snapshot. |
| PriorityQueues.PriorityQueue.Rescore | core/agentdesk-core/src/queue.rs:63-84 | All live entries get the score of this instant, the others keep theirs, and exactly the changed ones are reported, by increasing id. What a score is: `Scoring.ScoresBySeverity` and the rows after it. |
| PriorityQueues.PriorityQueue.UpdateEntryScore | core/agentdesk-core/src/queue.rs:86-105 | One entry is re-scored; it is reported if and only if its score changed; unknown ids change nothing. |
| PriorityQueues.PriorityQueue.Ack | core/agentdesk-core/src/queue.rs:109-127 | A new entry becomes seen and is reported; any other state stays and nothing is reported; unknown ids are an error. |
| PriorityQueues.PriorityQueue.Dismiss | core/agentdesk-core/src/queue.rs:136-158 | An entry becomes dismissed, reported only the first time. |
| PriorityQueues.PriorityQueue.RespondRequest | core/agentdesk-core/src/queue.rs:160-186 | Only an unresolved request moves to pending delivery; otherwise the error names why and nothing changes. |
| PriorityQueues.PriorityQueue.MarkDelivered | core/agentdesk-core/src/queue.rs:189-214 | Only a pending request takes the delivered decision. |
| PriorityQueues.PriorityQueue.MarkDeliveryFailed | core/agentdesk-core/src/queue.rs:217-237 | Only a pending request is reopened. |
| PriorityQueues.PriorityQueue.Escalate | core/agentdesk-core/src/queue.rs:240-260 | The level is set, and reported only when it changed. |
| PriorityQueues.PriorityQueue.Supersede | core/agentdesk-core/src/queue.rs:263-288 | An entry is marked superseded, except a request that is pending or resolved; reported only when it changed. |
| Tracker.TaskTracker.ObserveEvent | core/agentdesk-core/src/tracker.rs:102-161 | The open tasks and the displaced events are the specified function of the old tasks and the event. |
| Tracker.TaskTracker.Tick | core/agentdesk-core/src/tracker.rs:165-195 | Every open task gets the level its elapsed time calls for, and the actions are exactly the raises, in task order, whatever the map's order. |
| Tracker.TickActionsExact | core/agentdesk-core/src/tracker.rs:165-195 | The actions of a tick, in strict task order, are exactly those of the tasks whose level rises. |
| LogStores.AgentBuffer.Append | core/agentdesk-core/src/log_store.rs:65-74 | Appending numbers the line by the next offset and evicts the oldest line of a full ring. |
| LogStores.LogStore.Append | core/agentdesk-core/src/log_store.rs:258-261 | Appending touches this agent's buffer only, creating it on first use. |
| LogStores.LogStore.AppendLines | core/agentdesk-core/src/log_store.rs:263-274 | Appending several lines is appending each in order. |
| LogStores.LogStore.Pin | core/agentdesk-core/src/log_store.rs:309-328 | Pinning stores the buffered slice around the range and registers the event. |
| LogStores.LogStore.AppendToPinned | core/agentdesk-core/src/log_store.rs:342-356 | A line is added to the pinned window with the next offset; events that are not pinned are left alone. |
| LogStores.LogStore.GetEventLogs | core/agentdesk-core/src/log_store.rs:359-464 | The reply is read from the pinned window if there is one, otherwise from the agent's buffer; unknown events give nothing. |
| LogHistory.StoreKeepsSuffix | core/agentdesk-core/src/log_store.rs:65-81 | After any operations, each agent's buffer is exactly the retained suffix of everything ever appended for it, and offsets are positions in that history. |
| LogHistory.PageIsWindow | core/agentdesk-core/src/log_store.rs:83-151 | A page is exactly the history from the later of the asked offset and the oldest retained one, up to the limit; `evicted` holds if and only if the asked offset is gone. |
| LogHistory.TailIsLastLines | core/agentdesk-core/src/log_store.rs:153-177 | A tail is the last lines of the history, as many as asked for and retained. |
| LogHistory.WalkReadsSuffix | core/agentdesk-core/src/log_store.rs:83-151 | Reading page after page from any retained offset reconstructs the whole history from there. |
| LogHistory.SliceIsClampedHistory | core/agentdesk-core/src/log_store.rs:179-198 | A slice is the history's slice clamped to what is retained, with contiguous offsets. |
| LogHistory.PinnedWindowIsHistory | core/agentdesk-core/src/log_store.rs:309-356 | Whatever is appended, evicted or pinned later, a pinned window is the clamped history around its range at pin time followed by the recorded responses, with contiguous offsets; a window exists if and only if the event was pinned. |
| LogHistory.WindowLogsExact | core/agentdesk-core/src/log_store.rs:359-440 | Reading a window by any offset and limit gives exactly those lines, and `evicted` if and only if lines from before the window were asked for; the tail is its last lines, as many as asked for or all, at their true offset. |
| LogHistory.BoundedExactly | core/agentdesk-core/src/log_store.rs:57-74 | Buffers stay within the configured capacity after all operations if and only if the capacity is at least one. |
| LogHistory.LogsFoundIffKnown | core/agentdesk-core/src/log_store.rs:359-464 | Logs are found if and only if the event was ever registered or pinned. |
| CoreTasks.EventProcessor.ProcessLine | core/agentdesk-core/src/processor.rs:87-97 | A bare line is appended to its agent's log and counted. |
| CoreTasks.EventProcessor.ProcessRawEvent | core/agentdesk-core/src/processor.rs:100-212 | An event without agent, kind or number is only counted as dropped; any other is classified, numbered, logged, pinned or registered, stored and queued with its score, and counted. |
| Arrivals.EventTaken | core/agentdesk-core/src/processor.rs:100-212 | An event is taken if and only if it names an agent and a kind and has a number; it is stored with all it said under the next number at this instant, and queued as new, unresolved exactly if it is a request. |
| Arrivals.EventAnnouncedLast | core/agentdesk-core/src/core_task.rs:254-316 | The last message of the step is the event and entry as stored; before it only superseded marks are announced. |
| Arrivals.RequestsAnswered | core/agentdesk-core/src/core_task.rs:318-648 | Every client request is answered exactly once, last, under its own request id, with exactly the body or the error that the state before calls for. |
| Arrivals.LinesReadBack | core/agentdesk-core/src/core_task.rs:595-640 | The lines of a prompt are read back from it, whichever line end was used, with or without one at the end. |
| Marks.EntriesMarked | core/agentdesk-core/src/queue.rs:86-288 | What every command leaves of every entry: reading makes a new one seen, a dismissal any dismissed, an answer decides or opens a request by the channel's state, an outcome settles or reopens a pending one, an event at most marks one superseded, a tick at most escalates; scores follow, all else stays. |
| Marks.CountersMove | core/agentdesk-core/src/core_task.rs:190-680 | Which counter every command moves, and by how much; no other moves. |
| CoreTasks.CoreTask.SendTo | core/agentdesk-core/src/core_task.rs:140-167 | A message is offered to one client; a full or closed sink is dropped, a failing one is kept with the message lost. |
| CoreTasks.CoreTask.Broadcast | core/agentdesk-core/src/core_task.rs:169-174 | A message is offered to every client, in any order, with the same treatment of sinks. |
| CoreTasks.CoreTask.HandleTick | core/agentdesk-core/src/core_task.rs:231-252 | A tick re-scores and announces, then escalates action by action, as the state machine says. |
| CoreTasks.CoreTask.HandleEvent | core/agentdesk-core/src/core_task.rs:254-316 | An event is processed, shown to the tracker, its displaced events superseded and announced one by one, and only then announced itself. |
| CoreTasks.CoreTask.HandleRespond | core/agentdesk-core/src/core_task.rs:402-527 | A response is accepted, re-scored, announced, forwarded and recorded, then delivered, rolled back or settled at once, with exactly the messages of the state machine in order. Which response it sends: `Responses.AnswerSent`. |
| Responses.AnswerSent | core/agentdesk-model/src/message.rs:257-277 | Answering an open request over a channel with room adds one command: for the stored event's task and number, refusing if denied whatever came with it, with exactly the text, the one option, the list or a plain approval if approved. |
| Responses.AnswerRecorded | core/agentdesk-core/src/core_task.rs:402-527 | Whatever the channel, the pinned window of the event gets exactly one more line, and it says the same. |
| Responses.AnswerOnMenu | core/agentdesk-core/src/antigravity/input_encoder.rs:229-252 | On a menu a denial is submitted at the first row beginning with No and a plain approval at the first beginning with Yes, or refused if there is none. |
| Responses.DenialReachesNo | core/agentdesk-core/src/core_task.rs:402-527 | From the client's request to the menu: the command a denial adds to the channel submits the first row beginning with No, or is refused. |
| Responses.DeniedQuestion | core/agentdesk-core/src/antigravity/input_encoder.rs:153-155 | A denied question is skipped with one Escape byte, which every menu and text entry reads as leaving it. |
| CoreTasks.CoreTask.HandleStartTask | core/agentdesk-core/src/core_task.rs:595-640 | A prompt is logged line by line, offered to the adapter without waiting, announced and confirmed. |
| CoreTasks.CoreTask.HandleClientMessage | core/agentdesk-core/src/core_task.rs:318-648 | Each client request does what the state machine says, replies included. |
| CoreTasks.CoreTask.HandleSnapshot | core/agentdesk-core/src/core_task.rs:177-187 | A snapshot message carries the live entries in order and their events. |
| CoreTasks.CoreTask.HandleOutcome | core/agentdesk-core/src/core_task.rs:651-680 | An outcome settles or reopens a pending request and announces it; any other outcome does nothing. |
| CoreTasks.CoreTask.Step | core/agentdesk-core/src/core_task.rs:190-229 | One step of the object is one step of the state machine, its messages reach the sinks as specified, and the system invariant with coherence is kept. |
| Replica.FakeClient.HandleMessage | core/agentdesk-bench/src/client.rs:187-283 | The client's entries and events are the folds of the messages; the known ids, the counters and the highest level seen of each task follow. |
| Coherence.StepGood | core/agentdesk-core/src/core_task.rs:190-680 | Every command keeps the core in order, keeps a client's folded view equal to the queue on what it knows, and a snapshot makes it complete. |
| Clients.ReplicaCoherence | core/agentdesk-core/src/core_task.rs:140-229 | At every point of every run, a connected client that lost no message holds the queue's entry for each event it knows, and from its snapshot on holds exactly the live entries, in the queue's order. |
| Losses.LossExactly | core/agentdesk-core/src/core_task.rs:140-229 | Over every stretch of a run in which a client stays connected, right before it or not, whatever it loses: the queue's value of each part of an entry it knew is what the last announcement of that part says, and the client's equals it if and only if the last one it took, or what it held if it took none, says the same; with no announcement neither changes. |
| Changes.TouchesExactly | core/agentdesk-core/src/core_task.rs:190-680 | Which commands change which part of which entry, exactly, read off the state before: a tick through a stale live score or a raised level; an event through supersession; reading, dismissing, answering and outcomes through the entry's state, the channel and the score at that instant. |
| Losses.EveryChangeAnnounced | core/agentdesk-core/src/core_task.rs:190-680 | For every command and client, the queue's value of each part of an entry after it is what the last announcement of that part says, and is unchanged if there is none. |
| Losses.LossHarmfulExactly | core/agentdesk-core/src/core_task.rs:140-167 | A client that was right about a part and took nothing about it during a command is wrong afterwards if and only if the command, by the condition on the state before, changes the part; and then the change was announced. |
| Losses.SnapshotResyncs | core/agentdesk-core/src/core_task.rs:177-187 | Over every run, a client that takes a snapshot, whatever it had lost, holds every live entry as the queue does and every other entry exactly as before; it is right about all it knows if and only if it was right about the dead entries it knew. |
| Losses.ReopeningLost | core/agentdesk-core/src/core_task.rs:402-527 | An answer into a full channel leaves the attention state as it was, yet a client that takes the first announcement and loses the second holds the request for pending. |
| Losses.KnownAreQueued | core/agentdesk-core/src/core_task.rs:140-229 | Whatever it lost, a client only ever knows events that are in the queue. |
| Incidents.LostAcknowledgement | core/agentdesk-core/src/core_task.rs:140-167 | A run in which a client loses the announcement of its own acknowledgement and keeps the event as new. |
| Delivery.RespondResolutions | core/agentdesk-core/src/core_task.rs:402-527 | Answering is refused unless the request is unresolved; with room in the channel it is pending and exactly that command was added; with a full or closed channel it is unresolved again, nothing was added and the client is told; without a channel the decision is taken at once. |
| Delivery.DeliveryProtocol | core/agentdesk-core/src/core_task.rs:402-680 | Over every run with the adapter, a request is pending if and only if exactly one command or outcome for it is in flight, never more, and an approved or denied request carries the human's latest decision. |
| Delivery.WorldNextOk | core/agentdesk-server/src/main.rs:447-480 | Commands taken from the channel and outcomes arriving in any order keep that invariant. |
| Delivery.StrayOutcomeSettles | core/agentdesk-server/src/main.rs:459-462 | A second outcome for a request settles it with the outcome's decision while the latest command stays in flight. |
| Delivery.LifecycleFollowed | core/agentdesk-model/src/queue.rs:21-41 | Every step moves every resolution along the documented lifecycle, and approved and denied never change again. |
| Delivery.PromptReachesChannel | core/agentdesk-core/src/core_task.rs:595-640 | A prompt is added to the adapter's channel if and only if there is one that is open and has room; otherwise the channel is unchanged. |
| Delivery.PromptLossInvisible | core/agentdesk-core/src/core_task.rs:595-640 | With any other channel, or none, the same prompt leads to the same messages, its announcement and a confirmation without error, and to the same state but for the channel. |
| Agreement.TrackerQueueAgreement | core/agentdesk-core/src/core_task.rs:266-285 | Over every run, a working event of a task is not superseded if and only if its task lists it; a request is not superseded if and only if it is listed or was spared when displaced, never both; and no task lists two requests. |
| Agreement.SparedWereAnswered | core/agentdesk-core/src/queue.rs:263-288 | A spared request was pending or resolved at the moment it was displaced. |
| Agreement.DisplacedExactly | core/agentdesk-core/src/tracker.rs:102-161 | Displaced are exactly the listed events of the task: all when it closes, its request when a newer one comes, none for progress. |
| Orphans.OrphanedExactly | core/agentdesk-core/src/core_task.rs:651-680 | Over every run, a request newly becomes live, unresolved and unlisted at a step if and only if the step is the failed delivery of its own answer and before it the request was pending, live and unlisted. |
| Orphans.PendingUnlistedWasSpared | core/agentdesk-core/src/queue.rs:263-288 | A request that is pending, live and unlisted was spared when an earlier event displaced it. |
| Incidents.RequestOrphaned | core/agentdesk-core/src/core_task.rs:651-680 | A run of four steps that ends with a live, unresolved request that no task lists. |
| Watchdog.TickLevelsExact | core/agentdesk-core/src/tracker.rs:165-195 | After every tick of every run, an open task with a working event has exactly the level its elapsed time calls for: 0, 1 from the expected duration, 2 from twice that. |
| Watchdog.LevelsByOperation | core/agentdesk-core/src/tracker.rs:30-55 | The same per operation on the table's own fields, and for the default table in minutes. |
| Watchdog.TaskOpens | core/agentdesk-core/src/tracker.rs:102-161 | A task is opened by the first event of it that is neither a completion nor an error, at that instant, for that agent and operation, and by nothing else. |
| Watchdog.ActionsRaise | core/agentdesk-core/src/tracker.rs:165-195 | A tick acts on a task if and only if its level rises, once, at the new level, on its latest working event. |
| Watchdog.LevelsNeverFall | core/agentdesk-core/src/tracker.rs:102-195 | No command lowers the level of a task that stays open, raises it above 2 or restarts its clock. |
| Watchdog.EscalatedAtMostTwice | core/agentdesk-core/src/tracker.rs:165-195 | Over any stretch of a run in which a task stays open, the ticks escalate it at strictly rising levels, each above the level it had, the last being the level it has; so they are at most as many as the level rose, and at most two. |
| Watchdog.TickScoresExact | core/agentdesk-core/src/core_task.rs:231-252 | After a tick every live entry's stored score is its score at that instant, at most 100, and only working entries have a level. |
| Conservation.EventsConserved | core/agentdesk-core/src/processor.rs:100-212 | Over every run, raw events are processed or dropped, and the processed ones are as many as the events stored and queued and as the last number given, with distinct numbers. |
| Conservation.StepLogs | core/agentdesk-core/src/processor.rs:87-212 | Each command performs exactly its log operations. |
| Conservation.StoredForever | core/agentdesk-core/src/event_store.rs:23-26 | Over every run, a stored event never changes and never goes away. |
| Conservation.EventFindsItsLines | core/agentdesk-core/src/processor.rs:127-165 | At any later point of the run, the log range stored with an event selects in its agent's full history exactly the lines it came with, and it is marked pinned if and only if it is a request or an error. |
| Conservation.PinnedWindowHasOwnLines | core/agentdesk-core/src/log_store.rs:309-328 | The pinned window of a request or error contains all its lines forever after, if the ring could hold that many. |
| Simulators.NextDueTaskIsNext | core/agentdesk-sim/src/simulator.rs:279-287 | The next task is the earliest due, the first listed among equals, and there is none if and only if nothing is due. |
| Simulators.NextIsUnique | core/agentdesk-sim/src/simulator.rs:279-287 | No other task meets that description. |
| Simulators.PieceDone | core/agentdesk-sim/src/simulator.rs:129-277 | Emitting a piece keeps a task exactly one of finished, due and blocked, uses up work and never schedules into the past. |
| Simulators.PolledOk | core/agentdesk-sim/src/simulator.rs:294-300 | A poll ends with nothing due, keeps the tasks in order and uses up work if anything was due. |
| Simulators.GranularityIrrelevant | core/agentdesk-sim/src/simulator.rs:3-6 | Polling at t1 and then at t2 emits the same sequence and reaches the same state, random position and agent numbers included, as polling at t2 alone. |
| Simulators.PolledInOrder | core/agentdesk-sim/src/simulator.rs:279-300 | Outputs leave in the order of their due times, none before or after its time. |
| Scripts.PieceSaid | core/agentdesk-sim/src/simulator.rs:129-261 | After each piece, what a task has said is exactly its script so far, every request so far approved, or its script up to the first request denied and then the denial. |
| Scripts.SaidIsConversation | core/agentdesk-sim/src/simulator.rs:129-332 | What a finished task has said is the one sequence that the decisions on its requests, in order, determine. |
| Scripts.AnswerSaid | core/agentdesk-sim/src/simulator.rs:306-332 | A decision by itself makes a task say nothing, and fixes what it says next. |
| Scripts.EmittedLogged | core/agentdesk-sim/src/simulator.rs:89-119 | Each emission extends the record of its own task only, numbers its agent's events without a gap, and carries its task's and agent's name. |
| Scripts.ProgressFilledIn | core/agentdesk-sim/src/simulator.rs:166-182 | A progress message is its template with the number of the piece and the count put in. |
| Timing.Moved | core/agentdesk-sim/src/simulator.rs:129-261 | A piece of a step moves its task on by one piece or to the next step, and by the delay and jitter of the step. |
| Timing.StepOnTime | core/agentdesk-sim/src/simulator.rs:129-332 | Each piece and each answer keeps every task where its script and history put it, due when they say. |
| Timing.OutputsOnTime | core/agentdesk-sim/src/simulator.rs:129-332 | Over every run of polls and answers, each output is due at the start of its task plus its offset, or at the instant of its last answer, plus the sum of the intervals, waits, delays and drawn jitters of the pieces since; each jitter is the draw at the number of jitters drawn. |
| Scenarios.Validate | core/agentdesk-sim/src/scenario.rs:192-262 | Validation reports the first fault in the order of the file, and none if and only if ids are unique, every task has a known agent and steps, counts and options are not empty, request and denial kinds classify as such, and nothing follows a terminal step. |
| Scenarios.EmptyLogAccepted | core/agentdesk-sim/src/scenario.rs:192-262 | A scenario with an empty log step passes validation and cannot be emitted. |
| EmptyLogs.StuckExactlyOnEmptyLog | core/agentdesk-sim/src/simulator.rs:176-188 | For every validated task, approving everything never indexes past the lines of a log step if and only if every log step has a line. |
| Drivers.Simulator.EmitPiece | core/agentdesk-sim/src/simulator.rs:129-277 | Emitting through the object, agent numbers and random draws included, is the emission of the specification. When the next piece is due: `Timing.OutputsOnTime`. |
| Drivers.Simulator.Poll | core/agentdesk-sim/src/simulator.rs:294-300 | The polling loop emits exactly the specified sequence and terminates. |
| Drivers.Simulator.NextDue | core/agentdesk-sim/src/simulator.rs:302-304 | The earliest due instant, if any task is due. |
| Drivers.Simulator.BlockedTasks | core/agentdesk-sim/src/simulator.rs:81-87 | The ids of the waiting tasks, in order. |
| Drivers.BlockedAmongExactly | core/agentdesk-sim/src/simulator.rs:81-87 | Exactly the waiting tasks are listed, none twice. |
| Drivers.Simulator.Respond | core/agentdesk-sim/src/simulator.rs:306-332 | A decision reaches exactly the blocked task with that id and is recorded for it; unknown and unblocked tasks are errors that change nothing. |
| Drivers.AnswerAll | core/agentdesk-sim/src/driver.rs:31-39 | The policy is asked about every blocked task, once and in order, and what it decides is what is delivered. |
| Drivers.RunToEnd | core/agentdesk-sim/src/driver.rs:17-47 | For every policy and delay the loop ends with every task finished; every decision delivered is what the policy decided when asked; each task said exactly what its own decisions determine: its whole script if all were approved, or its script up to the first request denied and then the denial; and the timeline is everything emitted, in order. |
| Canvases.PutChar | core/agentdesk-core/src/antigravity/screen.rs:743-767 | Writing a character keeps both grids rows by columns and the cursor inside. |
| Canvases.ResizeKeeps | core/agentdesk-core/src/antigravity/screen.rs:149-164 | Resizing keeps the canvas well-formed, keeps every cell that still fits in both grids and blanks the new ones. |
| Canvases.ExecuteCsi | core/agentdesk-core/src/antigravity/screen.rs:365-554 | Any control sequence with any parameters keeps the canvas well-formed. What each command does: `CanvasLaws`. |
| CanvasLaws.CursorMoves | core/agentdesk-core/src/antigravity/screen.rs:377-408 | Up, down, right, left and to the start of a line below or above: the direction, the distance asked for up to the edge, and nothing else but the waiting wrap changed. |
| CanvasLaws.CursorPlaced | core/agentdesk-core/src/antigravity/screen.rs:370-418 | The cursor goes to the one-based coordinates asked for, at most the last ones, and nothing else changes. |
| CanvasLaws.MovesUndone | core/agentdesk-core/src/antigravity/screen.rs:377-396 | Away from the edges, up undoes down and left undoes right, and the other way round. |
| CanvasLaws.Erases | core/agentdesk-core/src/antigravity/screen.rs:419-441 | Erasing blanks exactly the cells after the cursor, before it or all, of the display or the line, or as many as asked for; every other cell, the other screen and the cursor stay. |
| CanvasLaws.Shifts | core/agentdesk-core/src/antigravity/screen.rs:442-495 | Deleting and inserting cells and lines: which old cell each cell of the screen holds, and which are blank. |
| CanvasLaws.Rolls | core/agentdesk-core/src/antigravity/screen.rs:538-551 | Scrolling up and down: which old cell each cell holds; only scrolling up the main screen touches the scrollback. |
| CanvasLaws.RollsOneByOne | core/agentdesk-core/src/antigravity/screen.rs:777-804 | Scrolling by n is n times scrolling by one, each of which adds the trimmed top line to the scrollback, a blank one only after one that is not, and drops the oldest of 2000. |
| CanvasLaws.ScreensSwitch | core/agentdesk-core/src/antigravity/screen.rs:500-537 | Entering the alternate screen shows a blank one and saves the cursor; leaving it shows the main screen again and puts the cursor where it was saved. |
| CanvasLaws.SwitchesSet | core/agentdesk-core/src/antigravity/screen.rs:500-537 | The private modes for the cursor's visibility and for bracketed paste, and nothing else. |
| CanvasLaws.OthersLeave | core/agentdesk-core/src/antigravity/screen.rs:365-554 | Attribute sequences change the attributes alone and keep the waiting wrap; any other sequence that is not known ends it and does nothing else. |
| Screens.ProcessByte | core/agentdesk-core/src/antigravity/screen.rs:190-363 | Any byte keeps the screen well-formed: grids, cursor, limits of the buffers, and partial characters only between sequences and shorter than needed. |
| ScreenLaws.ControlBytes | core/agentdesk-core/src/antigravity/screen.rs:235-264 | Carriage return, line feed away from the bottom and on it, and the control characters that are ignored, in closed form. |
| ScreenLaws.TabStops | core/agentdesk-core/src/antigravity/screen.rs:259-262 | A tab goes to the next column that eight divides, or the last, and keeps a waiting wrap. |
| ScreenLaws.BackspaceCells | core/agentdesk-core/src/antigravity/screen.rs:243-258 | Backspace goes one cell back and takes the attributes from a blank it leaves or reaches; every other cell stays. |
| ScreenLaws.CharacterBytes | core/agentdesk-core/src/antigravity/screen.rs:743-767 | A character goes to exactly the cursor's cell with the current attributes; with a waiting wrap it does what carriage return, line feed and the character do. |
| ScreenLaws.CursorSaved | core/agentdesk-core/src/antigravity/screen.rs:282-291 | Escape 7 saves the cursor and escape 8 puts it back, inside the screen. |
| ScreenLaws.IndexReversed | core/agentdesk-core/src/antigravity/screen.rs:299-308 | Escape M goes one line up and scrolls down at the top. |
| ScreenLaws.ArrowsMove | core/agentdesk-core/src/antigravity/input_encoder.rs:12-23 | The bytes sent for the arrow keys are the sequences that move a cursor one line up and down. |
| ScreenLaws.AltKeepsMain | core/agentdesk-core/src/antigravity/screen.rs:190-363 | Whatever bytes arrive while the alternate screen is shown, the main screen and the scrollback stay as they are. |
| ScreenLaws.AltSession | core/agentdesk-core/src/antigravity/screen.rs:500-537 | A program that enters the alternate screen, writes anything there and leaves it gives back the main screen, the scrollback and, unless it saved another, the cursor. |
| Screens.Played | core/agentdesk-core/src/antigravity/screen.rs:117-190 | Any byte stream interleaved with any resizes leaves a new screen well-formed. |
| Screens.ChunksIrrelevant | core/agentdesk-core/src/antigravity/screen.rs:183-188 | How a stream is cut into chunks does not matter. |
| Terminals.EraseRows | core/agentdesk-core/src/antigravity/screen.rs:806-853 | The nested cell loops blank exactly the given rows. |
| Terminals.InsertCells | core/agentdesk-core/src/antigravity/screen.rs:455-469 | The insert loop shifts the rest of the row right by the count and cuts it at the width. |
| Terminals.DeleteCells | core/agentdesk-core/src/antigravity/screen.rs:442-454 | The drain and pad shift the rest of the row left and blank its end. |
| Terminals.InsertRows | core/agentdesk-core/src/antigravity/screen.rs:470-481 | The pop-and-insert loop moves the rows below the cursor down and blanks the gap. |
| Terminals.DeleteRows | core/agentdesk-core/src/antigravity/screen.rs:482-494 | The remove-and-push loop moves the rows below up and blanks the bottom. |
| Terminals.ResizeGrid | core/agentdesk-core/src/antigravity/screen.rs:149-164 | The loops give the grid cut or padded to the new size. |
| Terminals.Terminal.PutChar | core/agentdesk-core/src/antigravity/screen.rs:743-767 | The object writes a character as specified, the waiting wrap included. |
| Terminals.Terminal.ScrollUp | core/agentdesk-core/src/antigravity/screen.rs:777-794 | The top row is dropped, kept in the bounded scrollback unless it is blank with no text line before it there, or the alternate screen is shown, and a blank row enters at the bottom. |
| Terminals.Terminal.ExecuteCommand | core/agentdesk-core/src/antigravity/screen.rs:365-554 | The object executes every control sequence as specified. What each command does: `CanvasLaws`. |
| Terminals.Terminal.ProcessByteOf | core/agentdesk-core/src/antigravity/screen.rs:190-363 | The object's fields after a byte are the specified screen, well-formed. |
| Terminals.Terminal.ProcessAll | core/agentdesk-core/src/antigravity/screen.rs:183-188 | The byte loop leaves the specified screen for the whole stream. |
| Terminals.Terminal.Resize | core/agentdesk-core/src/antigravity/screen.rs:149-164 | The object's fields after a resize are the specified screen, well-formed. |
| Layout.TextLayout | core/agentdesk-core/src/antigravity/screen.rs:743-794 | Any text on a new screen of any size puts character (r+k)*cols+c into cell (r,c), k rows having scrolled off, with the cursor and the waiting wrap in closed form. |
| Layout.TextReadsBack | core/agentdesk-core/src/antigravity/screen.rs:777-898 | When no scrolled-off row is blank and at most 2000 scrolled off, scrollback followed by the visible rows is the text cut into lines of the screen's width, trailing blanks trimmed. |
| Layout.ScrollByIsSlice | core/agentdesk-core/src/antigravity/screen.rs:777-804 | Scrolling n times is one slice of the grid, for every n. |
| Utf8.DecodesExactlyEncodings | core/agentdesk-core/src/antigravity/screen.rs:194-221 | Of all complete sequences exactly the encodings of scalars decode, each to its scalar: no overlong forms, surrogates or values too large. |
| Utf8.TextRoundTrip | core/agentdesk-core/src/antigravity/screen.rs:183-269 | The bytes of any printable text write exactly that text. |
| Utf8.TextRoundTripChunked | core/agentdesk-core/src/antigravity/screen.rs:183-269 | So they do in whatever chunks they arrive. |
| CsiParams.PrintedParses | core/agentdesk-core/src/antigravity/screen.rs:313-341 | Numbers printed in decimal and joined by semicolons are read back, each as the minimum of its true value and 65535. |
| CsiParams.SequenceExecutes | core/agentdesk-core/src/antigravity/screen.rs:313-376 | A whole printed sequence executes its final byte with those parameters and leaves the parser at rest. |
| CsiParams.PrivateExecutes | core/agentdesk-core/src/antigravity/screen.rs:313-341 | The same sequence with a question mark in front executes as a private one. |
| CsiParams.ReportRestoresCursor | core/agentdesk-server/src/tui/terminal_session.rs:35-41 | Sending the row and column of a cursor position report back as a cursor position command puts the cursor where it was reported. |
| Questions.SameRequestEquivalence | core/agentdesk-core/src/antigravity/state_machine.rs:245-303 | Being the same request is an equivalence on exactly the blocking states. |
| Questions.SameRequestExactly | core/agentdesk-core/src/antigravity/state_machine.rs:245-303 | Two states are the same request exactly when a human is asked and they agree in all but the live cursor, check marks and typed text. |
| InputEncoder.KeysRead | core/agentdesk-core/src/antigravity/input_encoder.rs:13-23 | The bytes of keys other than Escape read back as exactly those keys. |
| InputEncoder.Navigate | core/agentdesk-core/src/antigravity/input_encoder.rs:294-306 | The arrow loop pushes exactly the arrows from one row to the other. |
| InputEncoder.NavigateAndSelect | core/agentdesk-core/src/antigravity/input_encoder.rs:309-313 | So do the arrows followed by Enter. |
| InputEncoder.FindRowFirst | core/agentdesk-core/src/antigravity/input_encoder.rs:136-145 | A label resolves to the first row that carries it, the write-in row excluded, and to none only if there is none. |
| InputEncoder.EncodeMultiChoice | core/agentdesk-core/src/antigravity/input_encoder.rs:254-291 | The resolving and toggling loops push exactly the specified keys, or refuse. |
| InputEncoder.EncodeRetype | core/agentdesk-core/src/antigravity/input_encoder.rs:188-196 | The backspace loop, the text and Enter are the bytes of clearing and retyping. |
| MenuProof.MultiChoiceCorrect | core/agentdesk-core/src/antigravity/input_encoder.rs:254-291 | The bytes, read by a menu from its live cursor and marks, check exactly the rows asked for, toggle exactly the rows whose mark was wrong, each once, never leave the menu, and press Enter on the row toggled last or where the cursor was; they submit if and only if that is not the write-in row. |
| MenuProof.MultiChoiceSubmits | core/agentdesk-core/src/antigravity/input_encoder.rs:254-291 | An answer opens the text entry instead of being submitted if and only if the write-in row is the last with a wrong mark, or under the cursor with no mark wrong. |
| MenuProof.AnswerOpensTextEntry | core/agentdesk-core/src/antigravity/input_encoder.rs:188-217 | A menu for which an answer and a write-in compile to the same Enter, which opens the text entry. |
| MenuProof.ApproveCorrect | core/agentdesk-core/src/antigravity/input_encoder.rs:157-165 | Approving a question submits its text or marks as they are, or opens the text entry from the write-in row of a multiple choice; on the write-in row of a single choice, and only there, it is refused. |
| MenuProof.MultiChoiceRefusal | core/agentdesk-core/src/antigravity/input_encoder.rs:254-276 | A multiple choice is refused if and only if nothing is asked for or a label names no row other than the write-in. |
| MenuProof.SingleChoiceCorrect | core/agentdesk-core/src/antigravity/input_encoder.rs:163-172 | A choice submits the first row with that label, never the write-in row, toggling nothing, and is refused if there is none. |
| MenuProof.MenuChoiceCorrect | core/agentdesk-core/src/antigravity/input_encoder.rs:229-252 | Any response to a menu submits its first row that answers it, wherever the cursor is: the one named, by one option or a list of one, the first that begins with Yes for an approval and with No for a denial; without such a row, and for a stale cursor, it is refused. |
| MenuProof.FreeTextCorrect | core/agentdesk-core/src/antigravity/input_encoder.rs:186-198 | Valid text replaces the current text exactly: no byte of it can be taken for another key. |
| MenuProof.ReplyCorrect | core/agentdesk-core/src/antigravity/input_encoder.rs:85-101 | A reply, as text or as a chosen option, types exactly its text and submits it if and only if it is valid, and an option not blank; anything else is refused. |
| MenuProof.WriteInHeldBack | core/agentdesk-core/src/antigravity/input_encoder.rs:199-217 | A write-in answer only opens the text entry of the write-in row; its text is held back and not typed into the menu. |
| Adapters.PtyAdapter.OpenRequest | core/agentdesk-core/src/antigravity/adapter.rs:367-407 | The same request is refreshed, a lingering answered one ignored, any other expires the old one and is announced under the next generation. |
| Adapters.PtyAdapter.TryCompleteWriteIn | core/agentdesk-core/src/antigravity/adapter.rs:411-465 | Held-back text is typed, kept waiting or dropped as specified. |
| Adapters.PtyAdapter.HandleStateTransition | core/agentdesk-core/src/antigravity/adapter.rs:468-627 | Each detected state has exactly the specified effect on the request, the lifecycle and the events. Which event that is: `AdapterNews.NewsExactly`. |
| Adapters.PtyAdapter.Poll | core/agentdesk-core/src/antigravity/adapter.rs:654-731 | A poll hands out the buffered events and those it raises, in order, and leaves the specified state. |
| Adapters.PtyAdapter.RespondWithResponse | core/agentdesk-core/src/antigravity/adapter.rs:757-863 | A response is checked in the specified order and delivered or refused with the specified error. |
| Adapters.PtyAdapter.StartPrompt | core/agentdesk-core/src/antigravity/adapter.rs:881-911 | A prompt is typed, bracketed when it has several lines, and announced, if the terminal accepts it. |
| AdapterRuns.EventsAndRequestsNumbered | core/agentdesk-core/src/antigravity/adapter.rs:230-263 | Over every run, the events handed out are numbered 1, 2, 3 and so on in order, and the requests among them carry the generations 1, 2, 3 and so on. |
| AdapterRuns.OneAnswerEach | core/agentdesk-core/src/antigravity/adapter.rs:757-863 | Each generation receives at most one delivered response, in the order of generations. |
| AdapterRuns.AnswersReachTheirRequest | core/agentdesk-core/src/antigravity/adapter.rs:757-808 | A delivered response went to the latest request, whose announcement was handed out under the number the response names, while the screen still showed that request, encoded against the live screen. |
| AdapterRuns.WriteInTypedOnce | core/agentdesk-core/src/antigravity/adapter.rs:411-465 | A held-back text is typed at most once, unchanged, into the text entry of the same question, before its deadline. |
| AdapterRuns.GraceRespected | core/agentdesk-core/src/antigravity/adapter.rs:382-389 | A dialog just answered is not announced again within its grace period unless something else happened. |
| AdapterRuns.OnlyAnswersAreTyped | core/agentdesk-core/src/antigravity/adapter.rs:18-21 | Nothing reaches the terminal but the keys of delivered answers, held-back texts and prompts, in order. |
| AdapterRuns.RefusalsTellTheTruth | core/agentdesk-core/src/antigravity/adapter.rs:764-790 | A live adapter says "already consumed" if and only if the latest request was answered and "not blocked" if and only if it never asked; a refused response types, raises and records nothing. |
| AdapterNews.NewsExactly | core/agentdesk-core/src/antigravity/adapter.rs:367-911 | Over every run, the kinds that each input raises, exactly and in order: a completion for a new finished state or an idle prompt after work with evidence, a failed command for a fatal error on a lifecycle not ended, progress for new details and for each delivered answer and prompt, an adapter error for a terminal found gone, and a question for a dialog not asked about. |
| AdapterNews.KindsMeanWhatTheySay | core/agentdesk-core/src/classifier.rs:39-136 | The classifier knows every kind the adapter raises by name: only a completion is a completion, only a failure an error, only a question a critical request. |
| AdapterGaps.ExitsExactly | core/agentdesk-core/src/antigravity/adapter.rs:411-816 | A step brings the lifecycle to its end if and only if the terminal refuses a response that passed every check, or a held-back text that was due and whose dialog is not asked about at once, or a new screen shows a fatal error, or a poll finds the terminal gone. |
| AdapterGaps.ExitNews | core/agentdesk-core/src/antigravity/adapter.rs:411-816 | Of these, a fatal error is raised as a failed command, and a refused send raises nothing. |
| AdapterGaps.RevivesExactly | core/agentdesk-core/src/antigravity/adapter.rs:367-911 | A step moves an adapter that reached its end on if and only if the terminal takes a response or prompt after all, or a poll finds it alive and sees work, its end or an idle prompt anew, types a held-back text, or asks about a dialog. |
| AdapterGaps.EndedExactly | core/agentdesk-core/src/antigravity/adapter.rs:411-911 | After every run, the lifecycle is at its end if and only if some step ended it and no later step moved it on, by those two conditions. |
| AdapterGaps.ExitReportedExactly | core/agentdesk-core/src/antigravity/adapter.rs:707-728 | After every run, a poll that finds the terminal gone raises an error, unless some step, this poll included, ended the lifecycle in another of these ways or found the terminal gone, and none since moved it on. |
| AdapterGaps.UnreportedExit | core/agentdesk-core/src/antigravity/adapter.rs:809-816 | A run of three steps whose exit raises nothing. |
| AdapterGaps.AskedExactly | core/agentdesk-core/src/antigravity/adapter.rs:654-705 | After a poll of a live terminal, the dialog on screen is asked about if and only if it was already; or it is new, does not linger and took no held-back text; or an answer's grace period is over with nothing pending and no text held back. |
| AdapterGaps.DialogStranded | core/agentdesk-core/src/antigravity/adapter.rs:792-800 | A dialog noticed by a mismatched response, with nothing answered since the expired request was announced, is never asked about while it stays on screen, and every response is refused as a mismatch. |
| Incidents.QuestionStranded | core/agentdesk-core/src/antigravity/adapter.rs:792-800 | Runs from a new adapter in which that happens to a question. |
| Prompts.PromptReadExactly | core/agentdesk-core/src/antigravity/adapter.rs:881-888 | The bytes of a prompt, read by a chat entry that takes keys and bracketed pastes, submit exactly the prompt if and only if one line has no control character below U+0080 and several lines do not contain the end of a paste. |
| Base64.Encode | core/agentdesk-server/src/tui/clipboard.rs:9-30 | The chunk loop computes the encoding. |
| Base64.Decode | core/agentdesk-server/src/tui/clipboard.rs:33-76 | The cleaning and chunk loops compute the decoding, failures included. |
| Base64.ShiftsAreArithmetic | core/agentdesk-server/src/tui/clipboard.rs:16-74 | The shifts and masks on bytes are the divisions and remainders of the model. |
| Base64.EncodedShape | core/agentdesk-server/src/tui/clipboard.rs:9-30 | Four characters for each three bytes begun, all of the alphabet but as many pads at the end as bytes are missing. |
| Base64.Alphabet | core/agentdesk-server/src/tui/clipboard.rs:9-30 | The alphabet runs from A to Z, a to z and 0 to 9, each in order, and ends with + and /. |
| Base64.GroupIsNumber | core/agentdesk-server/src/tui/clipboard.rs:9-30 | The characters of a group are the base-64 digits of its bytes read as one number; missing bytes are zero and their characters pads. |
| Base64.RoundTrip | core/agentdesk-server/src/tui/clipboard.rs:9-76 | Decoding an encoding gives back every byte sequence. |
| Base64.WhitespaceIrrelevant | core/agentdesk-server/src/tui/clipboard.rs:33-43 | Whitespace inserted anywhere never changes a decode. |
| Base64.CanonicalExactly | core/agentdesk-server/src/tui/clipboard.rs:33-76 | For every text, whitespace included: it decodes and re-encoding gives it back if and only if it is canonical. |
| Base64.DecodesExactly | core/agentdesk-server/src/tui/clipboard.rs:33-76 | A text decodes if and only if, without its whitespace, no group has a single character and each character is of the alphabet, or a pad in the second half of its group, or the last of a group whose third is a pad. |
| Base64.EncodingsAreCanonical | core/agentdesk-server/src/tui/clipboard.rs:9-30 | Every encoding is canonical. |
| Base64.ConcatenationsDecode | core/agentdesk-server/src/tui/clipboard.rs:54-74 | Encodings put one after the other decode to the bytes put one after the other, pads in the middle or not. |
| Base64.DecodesMoreThanCanonical | core/agentdesk-server/src/tui/clipboard.rs:54-74 | An unpadded text, one with stray bits before its pads and one with a foreign character behind a pad are not canonical and decode all the same. |
| Percent.PercentRoundTrip | core/agentdesk-server/src/pairing.rs:58-69 | Percent-decoding an encoded text gives back every text. |
| Percent.PercentEncodes | core/agentdesk-server/src/pairing.rs:58-69 | Letters, digits and four marks stand for themselves; any other ASCII character becomes a percent sign and two upper-case hexadecimal digits. |
| Pairing.LinkText | core/agentdesk-server/src/pairing.rs:58-69 | The text of a link whose values need no escapes, parameter by parameter. |
| Pairing.ReadQuery | core/agentdesk-server/src/pairing.rs:82-148 | The loop over the parameters computes the specified reading. |
| Pairing.UriRereads | core/agentdesk-server/src/pairing.rs:58-157 | What a link written for any payload reads as, errors included, when its fingerprint has no ampersand. |
| Pairing.UriRoundTrip | core/agentdesk-server/src/pairing.rs:58-157 | For every payload: it reads as the payload, the fingerprint stripped of colons and spaces, if and only if the version is 1, the ids and the relay are not blank, the secret is 64 hexadecimal digits, and the stripped fingerprint has no ampersand, decodes to itself and is not blank. |
| Pairing.AmpersandCuts | core/agentdesk-server/src/pairing.rs:58-157 | With an ampersand in the fingerprint, whatever the rest of it imitates, the fingerprint read is another. |
| Pairing.HexFingerprintsTravel | core/agentdesk-server/src/pairing.rs:58-69 | Fingerprints of hexadecimal digits, colons and spaces meet that condition if they have a digit. |
| Pairing.UnknownParameter | core/agentdesk-server/src/pairing.rs:92-139 | An unknown parameter, a bare or an empty key included, changes nothing if its value decodes and otherwise makes the link undecodable, unless the link is refused before it. |
| Pairing.UndecodableValue | core/agentdesk-server/src/pairing.rs:97-97 | A value that does not decode. |

## Left out

- Sockets, TLS, WebSocket handshakes, the relay, tunnels, device and token files, process transports and PTY spawning: input and output.
- The `raw_lines` and `raw_events` pipeline modes, byte counts and agent registration: one-line forwarding.
- The ACP adapter: JSON handling around a shallow state machine.
- `detect_state`, the summary extractors and `has_positive_completion_evidence`: screen heuristics, taken as arbitrary inputs of the adapter.
- Event messages, details, options and question types of requests, and log lines that the adapter attaches: text built by formatting; the adapter's events carry their number, kind, generation and state.
- SGR and OSC 8, 52 and 133 in the screen: their effect on the attributes is an arbitrary function, and shell marks and clipboard requests are not modelled.
- The replies to device attribute and status queries of a terminal session: constant strings.
- `send_raw_input` and `resize` of the adapter: they forward to the terminal and do not touch the protocol.
- `encode_decision`: the legacy encoder for bare decisions, which calls the menu encoder.
- `ground_truth` and the defaults of scenarios, and bench reports: presentation.
- `PairingManager`: a session table with expiry, each rule of which is one comparison.
- The `urlencoding` crate is not part of this repository: a percent sign that no two hexadecimal digits follow is taken to stand for itself, and decoded bytes that are not UTF-8 are an error.
- UUID and random number generation: fresh ids and an arbitrary stream with a position.
- TUI views, themes, key bindings, discovery, command line and preferences: user interface.
- Replica.FakeClient.HandleMessage: does not schedule the bench client's own taps, because they are a fixed policy of later requests; the summaries of the raw pipelines are not counted.
- CoreTasks.CoreTask.SendTo: does not count transmitted messages, bytes and slow clients, because nothing but a metrics reply reads these statistics; the metrics of the model lack them.
- CoreTasks.CoreTask.HandleRespond: forwards the id and the decision to the other clients, without the options and the text that came with them, because no client folds them into its view.
- Drivers.Simulator.EmitPiece: does not carry the details, options and question type of an event, because they are formatted from the script step and nothing here depends on them.
- MenuProof.MultiChoiceCorrect: for a menu whose live cursor and marks lie within its rows; the encoder does not check this for questions, as it does for approval menus.
- MenuProof.SingleChoiceCorrect: for a live cursor within the rows, for the same reason.
