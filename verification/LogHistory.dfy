/** The log store against the full, append-only history it stands for. The history of an agent and
    the content of a pinned window are read off the list of operations alone; the store keeps only a
    bounded part, and every read is a window of the history. */
module LogHistory {
  import opened Types
  import opened LogStores

  datatype Op =
    | AppendLine(agent: AgentId, text: string, ts: Time)
    | AppendLines(agent: AgentId, texts: seq<string>, ts: Time)
    | PinEvent(id: EventId, agent: AgentId, range: LogRange)
    | RegisterOnly(id: EventId, agent: AgentId)
    | RecordResponse(id: EventId, text: string, ts: Time)

  function Apply(s: LogState, op: Op): LogState {
    match op
    case AppendLine(agent, text, ts) => LogAppended(s, agent, text, ts)
    case AppendLines(agent, texts, ts) => LogAppendedAll(s, agent, texts, ts)
    case PinEvent(id, agent, range) => Pinned(s, id, agent, range)
    case RegisterOnly(id, agent) => Registered(s, id, agent)
    case RecordResponse(id, text, ts) => PinnedAppended(s, id, text, ts)
  }

  function Run(config: LogConfig, ops: seq<Op>): LogState {
    if ops == [] then EmptyLogs(config)
    else Apply(Run(config, ops[..|ops| - 1]), ops[|ops| - 1])
  }

  // ---- the reference --------------------------------------------------------------------------

  function Numbered(start: nat, texts: seq<string>, ts: Time): seq<LogLine> {
    seq(|texts|, i requires 0 <= i < |texts| => LogLine(start + i, ts, texts[i]))
  }

  /** Every line ever appended for `agent`. */
  function History(ops: seq<Op>, agent: AgentId): seq<LogLine> {
    if ops == [] then []
    else
      var before := History(ops[..|ops| - 1], agent);
      match ops[|ops| - 1]
      case AppendLine(a, text, ts) => if a == agent then before + Numbered(|before|, [text], ts) else before
      case AppendLines(a, texts, ts) => if a == agent then before + Numbered(|before|, texts, ts) else before
      case _ => before
  }

  /** How many of `n` lines a buffer keeps. A capacity of zero never evicts. */
  function Retained(capacity: nat, n: nat): nat {
    if capacity == 0 then n else Min(capacity, n)
  }

  function Oldest(config: LogConfig, history: seq<LogLine>): nat {
    |history| - Retained(config.ringCapacity, |history|)
  }

  /** The lines with offsets in `[from, until)`. */
  function Between(history: seq<LogLine>, from: nat, until: nat): seq<LogLine> {
    if from < Min(until, |history|) then history[from..Min(until, |history|)] else []
  }

  /** The window of `id`: the retained history around its range at the moment it was last pinned,
      then the responses recorded since. */
  function WindowReference(config: LogConfig, ops: seq<Op>, id: EventId): Option<PinnedWindow> {
    if ops == [] then None
    else
      var prefix := ops[..|ops| - 1];
      var before := WindowReference(config, prefix, id);
      match ops[|ops| - 1]
      case PinEvent(pinned, agent, range) =>
        if pinned != id then before
        else
          var history := History(prefix, agent);
          var from := Max(range.start - config.pinBefore, Oldest(config, history));
          Some(PinnedWindow(from, Between(history, from, range.end + config.pinAfter)))
      case RecordResponse(answered, text, ts) =>
        if answered == id && before.Some? then
          var w := before.value;
          Some(PinnedWindow(w.startOffset, w.lines + [LogLine(w.startOffset + |w.lines|, ts, text)]))
        else before
      case _ => before
  }

  // ---- the store keeps a suffix of the history -------------------------------------------------

  ghost predicate IsSuffixOf(b: Buffer, history: seq<LogLine>) {
    && b.nextOffset == |history|
    && b.lines == history[|history| - Retained(b.capacity, |history|)..]
    && forall i :: 0 <= i < |history| ==> history[i].offset == i
  }

  lemma EmptyIsSuffix(capacity: nat)
    ensures IsSuffixOf(Buffer(capacity, 0, []), [])
  {
  }

  lemma AppendKeepsSuffix(b: Buffer, history: seq<LogLine>, text: string, ts: Time)
    requires IsSuffixOf(b, history)
    ensures IsSuffixOf(Appended(b, text, ts), history + [LogLine(|history|, ts, text)])
    ensures Appended(b, text, ts).capacity == b.capacity
  {
  }

  lemma {:induction false} AppendAllKeepsSuffix(b: Buffer, history: seq<LogLine>, texts: seq<string>, ts: Time)
    requires IsSuffixOf(b, history)
    ensures IsSuffixOf(AppendedAll(b, texts, ts), history + Numbered(|history|, texts, ts))
  {
    hide IsSuffixOf, Appended;
    if texts == [] {
      assert history + Numbered(|history|, texts, ts) == history;
    } else {
      var last := |texts| - 1;
      var shorter := history + Numbered(|history|, texts[..last], ts);
      AppendAllKeepsSuffix(b, history, texts[..last], ts);
      AppendKeepsSuffix(AppendedAll(b, texts[..last], ts), shorter, texts[last], ts);
      NumberedSnoc(|history|, texts, ts);
      assert history + (Numbered(|history|, texts[..last], ts) + [LogLine(|shorter|, ts, texts[last])])
          == shorter + [LogLine(|shorter|, ts, texts[last])];
    }
  }

  lemma NumberedSnoc(start: nat, texts: seq<string>, ts: Time)
    requires texts != []
    ensures var last := |texts| - 1;
            Numbered(start, texts, ts) == Numbered(start, texts[..last], ts) + [LogLine(start + last, ts, texts[last])]
  {
  }

  /** At any moment each buffer holds exactly the last `Retained` lines of its agent's history, and
      lines are numbered by their position in it. */
  lemma {:induction false} StoreKeepsSuffix(config: LogConfig, ops: seq<Op>, agent: AgentId)
    ensures Run(config, ops).config == config
    ensures var b := BufferOf(Run(config, ops), agent);
            b.capacity == config.ringCapacity && IsSuffixOf(b, History(ops, agent))
  {
    hide IsSuffixOf, Appended, AppendedAll, Retained, PinWindow, WindowAppended;
    if ops == [] {
      EmptyIsSuffix(config.ringCapacity);
    } else {
      var prefix := ops[..|ops| - 1];
      StoreKeepsSuffix(config, prefix, agent);
      var s, history := Run(config, prefix), History(prefix, agent);
      match ops[|ops| - 1]
      case AppendLine(a, text, ts) =>
        AppendKeepsSuffix(BufferOf(s, agent), history, text, ts);
        assert Numbered(|history|, [text], ts) == [LogLine(|history|, ts, text)];
      case AppendLines(a, texts, ts) =>
        AppendAllKeepsSuffix(BufferOf(s, agent), history, texts, ts);
        CapacityKept(BufferOf(s, agent), texts, ts);
      case _ =>
    }
  }

  lemma {:induction false} CapacityKept(b: Buffer, texts: seq<string>, ts: Time)
    ensures AppendedAll(b, texts, ts).capacity == b.capacity
  {
    if texts != [] {
      CapacityKept(b, texts[..|texts| - 1], ts);
    }
  }

  // ---- reads are windows of the history --------------------------------------------------------

  /** A page is exactly the retained lines with offsets in `[offset, offset + limit)`; it is marked
      evicted when, and only when, it was asked for from before the oldest retained line. */
  lemma PageIsWindow(b: Buffer, history: seq<LogLine>, offset: nat, requested: nat, pageCap: nat)
    requires IsSuffixOf(b, history)
    ensures var limit := Min(requested, pageCap);
            var oldest := |history| - Retained(b.capacity, |history|);
            var page := Page(b, offset, requested, pageCap);
            && page.lines == Between(history, Max(offset, oldest), offset + limit)
            && (page.evicted <==> offset < oldest)
            && (page.lines != [] ==> page.offset == page.lines[0].offset == Max(offset, oldest))
            && page.total == Retained(b.capacity, |history|)
  {
    hide Retained, Between, Take, Skip;
    var limit, gone := Min(requested, pageCap), |history| - Retained(b.capacity, |history|);
    RetainedWithin(b.capacity, |history|);
    assert b.OldestOffset() == gone;
    assert b.lines == history[gone..];
    TakeIsBetween(history, gone, Max(offset, gone), offset + limit);
  }

  lemma TakeIsBetween(history: seq<LogLine>, gone: nat, from: nat, until: nat)
    requires gone <= |history| && gone <= from && forall i :: 0 <= i < |history| ==> history[i].offset == i
    ensures var lines := Between(history, from, until);
            && (from >= until || from >= |history| ==> lines == [])
            && (lines != [] ==> lines[0].offset == from)
            && (from < until && from <= |history| ==> Take(Skip(history[gone..], from - gone), until - from) == lines)
            && (from == gone && from < until ==> Take(history[gone..], until - gone) == lines)
  {
    if from < until && from < |history| {
      SliceOfSuffix(history, gone, from, Min(until, |history|));
    }
  }

  ghost predicate WithinCapacity(config: LogConfig, ops: seq<Op>, agent: AgentId) {
    |BufferOf(Run(config, ops), agent).lines| <= config.ringCapacity
  }

  /** Buffers stay within the configured capacity, whatever is done, exactly when that is at least one: at
      zero a buffer never evicts, and the first line already exceeds it. */
  lemma BoundedExactly(config: LogConfig)
    ensures (forall ops: seq<Op>, agent: AgentId :: WithinCapacity(config, ops, agent)) <==> config.ringCapacity >= 1
  {
    hide Run, History;
    if config.ringCapacity >= 1 {
      forall ops: seq<Op>, agent: AgentId ensures WithinCapacity(config, ops, agent) {
        StoreKeepsSuffix(config, ops, agent);
      }
    } else {
      FirstLineKept(config);
      assert !WithinCapacity(config, [AppendLine("", "", 0)], "");
    }
  }

  lemma FirstLineKept(config: LogConfig)
    ensures |BufferOf(Run(config, [AppendLine("", "", 0)]), "").lines| == 1
  {
    assert [AppendLine("", "", 0)][..0] == [];
  }

  /** The tail is the last `limit` retained lines. */
  lemma TailIsLastLines(b: Buffer, history: seq<LogLine>, requested: nat, pageCap: nat)
    requires IsSuffixOf(b, history)
    ensures var limit := Min(requested, pageCap);
            var page := Tail(b, requested, pageCap);
            var kept := Min(limit, Retained(b.capacity, |history|));
            && page.lines == history[|history| - kept..]
            && page.offset == |history| - kept && !page.evicted
  {
  }

  /** Reading pages one after the other, each from the end of the one before, until one is empty. */
  function Walk(b: Buffer, offset: nat, requested: nat, pageCap: nat): seq<LogLine>
    decreases b.nextOffset - offset
  {
    var page := Page(b, offset, requested, pageCap);
    var next := page.offset + |page.lines|;
    if page.lines == [] || next <= offset || b.nextOffset <= offset then page.lines
    else page.lines + Walk(b, next, requested, pageCap)
  }

  /** Walking pages from any retained offset, whatever the page size, reads the whole rest of the
      history, each line once and in order. */
  lemma {:induction false} WalkReadsSuffix(b: Buffer, history: seq<LogLine>, offset: nat, requested: nat, pageCap: nat)
    requires IsSuffixOf(b, history) && requested > 0 && pageCap > 0
    requires |history| - Retained(b.capacity, |history|) <= offset <= |history|
    ensures Walk(b, offset, requested, pageCap) == history[offset..]
    decreases |history| - offset
  {
    hide Page;
    PageIsWindow(b, history, offset, requested, pageCap);
    var page := Page(b, offset, requested, pageCap);
    if offset < |history| {
      var next := page.offset + |page.lines|;
      WalkReadsSuffix(b, history, next, requested, pageCap);
      assert history[offset..] == history[offset..next] + history[next..];
    }
  }

  // ---- pinned windows --------------------------------------------------------------------------

  /** Slicing the buffer is slicing the history, clamped to what is retained. */
  lemma SliceIsClampedHistory(b: Buffer, history: seq<LogLine>, start: nat, end: nat)
    requires IsSuffixOf(b, history)
    ensures var from := Max(start, |history| - Retained(b.capacity, |history|));
            SliceRange(b, start, end) == PinnedWindow(from, Between(history, from, end))
    ensures Contiguous(SliceRange(b, start, end))
  {
    hide Contiguous, Retained;
    var gone := |history| - Retained(b.capacity, |history|);
    RetainedWithin(b.capacity, |history|);
    var from := Max(start, gone);
    assert b.OldestOffset() == gone;
    if from < Min(end, |history|) {
      SliceOfSuffix(history, gone, from, Min(end, |history|));
    }
    BetweenIsContiguous(history, from, end);
  }

  lemma SliceOfSuffix(history: seq<LogLine>, gone: nat, from: nat, until: nat)
    requires gone <= from < until <= |history|
    ensures history[gone..] != [] && from - gone <= |history[gone..]| && until - from <= |history[gone..][from - gone..]|
    ensures history[gone..][from - gone..][..until - from] == history[from..until]
  {
  }

  lemma RetainedWithin(capacity: nat, n: nat)
    ensures Retained(capacity, n) <= n && (Retained(capacity, n) == 0 <==> n == 0)
  {
  }

  lemma BetweenIsContiguous(history: seq<LogLine>, from: nat, end: nat)
    requires forall i :: 0 <= i < |history| ==> history[i].offset == i
    ensures Contiguous(PinnedWindow(from, Between(history, from, end)))
  {
  }

  /** An agent nobody wrote for slices like an empty buffer. */
  lemma PinWindowSlices(s: LogState, agent: AgentId, range: LogRange)
    ensures PinWindow(s, agent, range)
         == SliceRange(BufferOf(s, agent), Max(range.start - s.config.pinBefore, 0), range.end + s.config.pinAfter)
  {
  }

  ghost predicate Contiguous(w: PinnedWindow) {
    forall i :: 0 <= i < |w.lines| ==> w.lines[i].offset == w.startOffset + i
  }

  lemma PinWindowIsClampedHistory(config: LogConfig, ops: seq<Op>, agent: AgentId, range: LogRange)
    ensures var history := History(ops, agent);
            var from := Max(range.start - config.pinBefore, Oldest(config, history));
            var w := PinWindow(Run(config, ops), agent, range);
            && w == PinnedWindow(from, Between(history, from, range.end + config.pinAfter))
            && Contiguous(w)
  {
    hide IsSuffixOf, SliceRange, PinWindow, Between, Contiguous, Run, History, BufferOf;
    StoreKeepsSuffix(config, ops, agent);
    PinWindowSlices(Run(config, ops), agent, range);
    SliceIsClampedHistory(BufferOf(Run(config, ops), agent), History(ops, agent),
                          Max(range.start - config.pinBefore, 0), range.end + config.pinAfter);
  }

  lemma ResponseKeepsContiguous(w: PinnedWindow, text: string, ts: Time)
    requires Contiguous(w)
    ensures WindowAppended(w, text, ts)
         == PinnedWindow(w.startOffset, w.lines + [LogLine(w.startOffset + |w.lines|, ts, text)])
    ensures Contiguous(WindowAppended(w, text, ts))
  {
  }

  /** Whatever is appended, evicted or pinned later, a pinned window stays the history around its
      range at pin time followed by the recorded responses, numbered without gaps. */
  lemma {:induction false} PinnedWindowIsHistory(config: LogConfig, ops: seq<Op>, id: EventId)
    ensures var pinned := Run(config, ops).pinned;
            var reference := WindowReference(config, ops, id);
            && (id in pinned <==> reference.Some?)
            && (id in pinned ==> pinned[id] == reference.value && Contiguous(pinned[id]))
  {
    hide Appended, AppendedAll, Retained, PinWindow, WindowAppended, Contiguous, Between, BufferOf, History;
    if ops != [] {
      var prefix := ops[..|ops| - 1];
      PinnedWindowIsHistory(config, prefix, id);
      match ops[|ops| - 1]
      case PinEvent(pinned, agent, range) =>
        PinWindowIsClampedHistory(config, prefix, agent, range);
      case RecordResponse(answered, text, ts) =>
        if id in Run(config, prefix).pinned {
          ResponseKeepsContiguous(Run(config, prefix).pinned[id], text, ts);
        }
      case _ =>
    }
  }

  /** Reading a pinned event's logs pages its window by the same rule as a buffer; only a request for lines
      from before the window is marked evicted. Asked for the tail, it is the last lines of the window, as
      many as asked for or all of them, at their true offset. */
  lemma WindowLogsExact(w: PinnedWindow, offset: int, limit: nat)
    requires Contiguous(w)
    ensures var page := WindowLogs(w, offset, limit);
            && page.total == |w.lines|
            && (page.lines != [] ==> page.offset == page.lines[0].offset)
            && if offset == LOG_OFFSET_TAIL then
                 var kept := Min(limit, |w.lines|);
                 && page.lines == w.lines[|w.lines| - kept..] && !page.evicted
                 && page.offset == w.startOffset + |w.lines| - kept
               else
                 var start := Max(offset, 0);
                 && page.lines == Between(w.lines, Max(start, w.startOffset) - w.startOffset,
                                          Max(start + limit - w.startOffset, 0))
                 && (page.evicted <==> limit > 0 && start < w.startOffset)
  {
  }

  ghost predicate Introduces(op: Op, id: EventId) {
    (op.PinEvent? || op.RegisterOnly?) && op.id == id
  }

  lemma IntroducedBy(s: LogState, op: Op, id: EventId)
    ensures id in Apply(s, op).eventAgents <==> id in s.eventAgents || Introduces(op, id)
    ensures id in Apply(s, op).pinned ==> id in s.pinned || Introduces(op, id)
  {
    hide PinWindow, WindowAppended, Appended, AppendedAll;
  }

  lemma {:induction false} KnownIffIntroduced(config: LogConfig, ops: seq<Op>, id: EventId)
    ensures id in Run(config, ops).eventAgents <==> exists op :: op in ops && Introduces(op, id)
    ensures id in Run(config, ops).pinned ==> id in Run(config, ops).eventAgents
  {
    hide Apply, Introduces;
    if ops != [] {
      var prefix, last := ops[..|ops| - 1], ops[|ops| - 1];
      KnownIffIntroduced(config, prefix, id);
      IntroducedBy(Run(config, prefix), last, id);
      assert forall op :: op in ops <==> op in prefix || op == last;
    }
  }

  /** An event's logs are found exactly when it was registered or pinned. */
  lemma LogsFoundIffKnown(config: LogConfig, ops: seq<Op>, id: EventId, offset: int, limit: nat)
    ensures EventLogs(Run(config, ops), id, offset, limit).Some? <==> exists op :: op in ops && Introduces(op, id)
  {
    hide Run, Introduces, WindowLogs, Page, Tail;
    KnownIffIntroduced(config, ops, id);
  }
}
