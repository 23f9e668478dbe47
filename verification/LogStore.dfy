/** Bounded per-agent log buffers and the windows pinned out of them. */
module LogStores {
  import opened Types

  datatype LogConfig = LogConfig(ringCapacity: nat, pinBefore: nat, pinAfter: nat, pageCap: nat)

  const DEFAULT_CONFIG: LogConfig := LogConfig(10_000, 200, 50, 500)

  /** Asking for this offset means asking for the tail. */
  const LOG_OFFSET_TAIL: int := -1

  datatype Buffer = Buffer(capacity: nat, nextOffset: nat, lines: seq<LogLine>) {
    function OldestOffset(): nat {
      if lines == [] then nextOffset else lines[0].offset
    }
  }

  datatype PinnedWindow = PinnedWindow(startOffset: nat, lines: seq<LogLine>)

  datatype LogPage = LogPage(offset: nat, total: nat, evicted: bool, lines: seq<LogLine>)

  datatype LogState = LogState(
    config: LogConfig,
    buffers: map<AgentId, Buffer>,
    pinned: map<EventId, PinnedWindow>,
    eventAgents: map<EventId, AgentId>)

  function EmptyLogs(config: LogConfig): LogState {
    LogState(config, map[], map[], map[])
  }

  // ---- one buffer -----------------------------------------------------------------------------

  function Appended(b: Buffer, text: string, ts: Time): Buffer {
    var kept := if |b.lines| == b.capacity && b.lines != [] then b.lines[1..] else b.lines;
    b.(nextOffset := b.nextOffset + 1, lines := kept + [LogLine(b.nextOffset, ts, text)])
  }

  function AppendedAll(b: Buffer, texts: seq<string>, ts: Time): Buffer {
    if texts == [] then b
    else Appended(AppendedAll(b, texts[..|texts| - 1], ts), texts[|texts| - 1], ts)
  }

  function Take(lines: seq<LogLine>, count: nat): seq<LogLine> {
    if count <= |lines| then lines[..count] else lines
  }

  function Skip(lines: seq<LogLine>, count: nat): seq<LogLine> {
    if count <= |lines| then lines[count..] else []
  }

  function Page(b: Buffer, offset: nat, requested: nat, pageCap: nat): LogPage {
    var limit := Min(requested, pageCap);
    var total := |b.lines|;
    var oldest := b.OldestOffset();
    if limit == 0 then LogPage(offset, total, offset < oldest, [])
    else if b.lines == [] then LogPage(b.nextOffset, 0, offset < oldest, [])
    else if offset < oldest then
      var end := offset + limit;
      if end <= oldest then LogPage(offset, total, true, [])
      else LogPage(oldest, total, true, Take(b.lines, end - oldest))
    else if offset >= b.nextOffset then LogPage(b.nextOffset, total, false, [])
    else LogPage(offset, total, false, Take(Skip(b.lines, offset - oldest), limit))
  }

  function Tail(b: Buffer, requested: nat, pageCap: nat): LogPage {
    var limit := Min(requested, pageCap);
    if limit == 0 || b.lines == [] then LogPage(b.nextOffset, |b.lines|, false, [])
    else
      var skip := |b.lines| - Min(limit, |b.lines|);
      LogPage(b.lines[skip].offset, |b.lines|, false, b.lines[skip..])
  }

  function SliceRange(b: Buffer, start: nat, end: nat): PinnedWindow {
    var oldest := b.OldestOffset();
    var from := Max(start, oldest);
    var until := Min(end, b.nextOffset);
    if from >= until || b.lines == [] then PinnedWindow(from, [])
    else PinnedWindow(from, Take(Skip(b.lines, from - oldest), until - from))
  }

  // ---- the store ------------------------------------------------------------------------------

  function BufferOf(s: LogState, agent: AgentId): Buffer {
    if agent in s.buffers then s.buffers[agent] else Buffer(s.config.ringCapacity, 0, [])
  }

  function NextOffset(s: LogState, agent: AgentId): nat {
    BufferOf(s, agent).nextOffset
  }

  function LogAppended(s: LogState, agent: AgentId, text: string, ts: Time): LogState {
    s.(buffers := s.buffers[agent := Appended(BufferOf(s, agent), text, ts)])
  }

  function LogAppendedAll(s: LogState, agent: AgentId, texts: seq<string>, ts: Time): LogState {
    s.(buffers := s.buffers[agent := AppendedAll(BufferOf(s, agent), texts, ts)])
  }

  function Registered(s: LogState, id: EventId, agent: AgentId): LogState {
    s.(eventAgents := s.eventAgents[id := agent])
  }

  function PinWindow(s: LogState, agent: AgentId, range: LogRange): PinnedWindow {
    var start := Max(range.start - s.config.pinBefore, 0);
    if agent in s.buffers then SliceRange(s.buffers[agent], start, range.end + s.config.pinAfter)
    else PinnedWindow(start, [])
  }

  function Pinned(s: LogState, id: EventId, agent: AgentId, range: LogRange): LogState {
    s.(eventAgents := s.eventAgents[id := agent], pinned := s.pinned[id := PinWindow(s, agent, range)])
  }

  function WindowAppended(w: PinnedWindow, text: string, ts: Time): PinnedWindow {
    var offset := if w.lines == [] then w.startOffset else w.lines[|w.lines| - 1].offset + 1;
    w.(lines := w.lines + [LogLine(offset, ts, text)])
  }

  function PinnedAppended(s: LogState, id: EventId, text: string, ts: Time): LogState {
    if id in s.pinned then s.(pinned := s.pinned[id := WindowAppended(s.pinned[id], text, ts)]) else s
  }

  function WindowLogs(w: PinnedWindow, offset: int, limit: nat): LogPage {
    var total := |w.lines|;
    if limit == 0 then
      LogPage(if offset == LOG_OFFSET_TAIL then w.startOffset + total else Max(offset, 0), total, false, [])
    else if offset == LOG_OFFSET_TAIL then
      if w.lines == [] then LogPage(w.startOffset, 0, false, [])
      else
        var skip := total - Min(limit, total);
        LogPage(w.lines[skip].offset, total, false, w.lines[skip..])
    else
      var from := Max(offset, 0);
      var end := w.startOffset + total;
      if from < w.startOffset then
        if from + limit <= w.startOffset then LogPage(from, total, true, [])
        else LogPage(w.startOffset, total, true, Take(w.lines, from + limit - w.startOffset))
      else if from >= end then LogPage(end, total, false, [])
      else
        var index := from - w.startOffset;
        LogPage(from, total, false, w.lines[index..index + Min(limit, total - index)])
  }

  /** The logs of one event, from its pinned window when it has one and from its agent's buffer
      otherwise; nothing for an unknown event. */
  function EventLogs(s: LogState, id: EventId, offset: int, requested: nat): Option<LogPage> {
    var limit := Min(requested, s.config.pageCap);
    if id in s.pinned then Some(WindowLogs(s.pinned[id], offset, limit))
    else if id !in s.eventAgents then None
    else
      var agent := s.eventAgents[id];
      if agent !in s.buffers then Some(LogPage(0, 0, false, []))
      else if offset == LOG_OFFSET_TAIL then Some(Tail(s.buffers[agent], limit, s.config.pageCap))
      else Some(Page(s.buffers[agent], Max(offset, 0), limit, s.config.pageCap))
  }

  // ---- the mutable store ----------------------------------------------------------------------

  class AgentBuffer {
    const capacity: nat
    var nextOffset: nat
    var lines: seq<LogLine>

    ghost function View(): Buffer
      reads this
    {
      Buffer(capacity, nextOffset, lines)
    }

    constructor (capacity: nat)
      ensures View() == Buffer(capacity, 0, [])
    {
      this.capacity := capacity;
      nextOffset := 0;
      lines := [];
    }

    method Append(text: string, ts: Time) returns (line: LogLine)
      modifies this
      ensures View() == Appended(old(View()), text, ts)
      ensures line == LogLine(old(nextOffset), ts, text)
    {
      var offset := nextOffset;
      nextOffset := nextOffset + 1;
      line := LogLine(offset, ts, text);
      if |lines| == capacity && |lines| > 0 {
        lines := lines[1..];
      }
      lines := lines + [line];
    }

    method AppendEach(texts: seq<string>, ts: Time)
      modifies this
      ensures View() == AppendedAll(old(View()), texts, ts)
    {
      for i := 0 to |texts|
        invariant View() == AppendedAll(old(View()), texts[..i], ts)
      {
        assert texts[..i + 1][..i] == texts[..i];
        var _ := Append(texts[i], ts);
      }
      assert texts[..|texts|] == texts;
    }
  }

  class LogStore {
    const config: LogConfig
    var agents: map<AgentId, AgentBuffer>
    var pinnedWindows: map<EventId, PinnedWindow>
    var eventAgents: map<EventId, AgentId>

    /** No two agents share a buffer. */
    ghost predicate Valid()
      reads this
    {
      forall a, b :: a in agents && b in agents && agents[a] == agents[b] ==> a == b
    }

    ghost function View(): LogState
      reads this, agents.Values
    {
      LogState(config, map a | a in agents :: agents[a].View(), pinnedWindows, eventAgents)
    }

    constructor (config: LogConfig)
      ensures Valid() && View() == EmptyLogs(config) && agents == map[]
    {
      this.config := config;
      agents := map[];
      pinnedWindows := map[];
      eventAgents := map[];
    }

    method BufferMut(agent: AgentId) returns (b: AgentBuffer)
      requires Valid()
      modifies this`agents
      ensures Valid() && fresh(agents.Values - old(agents.Values))
      ensures agent in agents && agents[agent] == b
      ensures old(agents.Keys) <= agents.Keys == old(agents.Keys) + {agent}
      ensures forall a :: a in old(agents) ==> agents[a] == old(agents)[a]
      ensures b.View() == BufferOf(old(View()), agent)
    {
      if agent !in agents {
        b := new AgentBuffer(config.ringCapacity);
        agents := agents[agent := b];
      }
      b := agents[agent];
    }

    /** When only one agent's buffer may have changed, so does the view. */
    twostate lemma OneBufferChanged(agent: AgentId)
      requires agents.Keys == old(agents.Keys) + {agent}
      requires forall a :: a in old(agents) && a != agent ==> agents[a] == old(agents)[a] && unchanged(old(agents)[a])
      requires unchanged(`pinnedWindows) && unchanged(`eventAgents)
      ensures View() == old(View()).(buffers := old(View()).buffers[agent := agents[agent].View()])
    {
      assert View().buffers == old(View()).buffers[agent := agents[agent].View()];
    }

    method Append(agent: AgentId, text: string, ts: Time) returns (line: LogLine)
      requires Valid()
      modifies this`agents, agents.Values
      ensures Valid() && fresh(agents.Values - old(agents.Values))
      ensures View() == LogAppended(old(View()), agent, text, ts)
      ensures line == LogLine(NextOffset(old(View()), agent), ts, text)
    {
      hide View;
      var b := BufferMut(agent);
      line := b.Append(text, ts);
      OneBufferChanged(agent);
    }

    method AppendLines(agent: AgentId, texts: seq<string>, ts: Time)
      requires Valid()
      modifies this`agents, agents.Values
      ensures Valid() && fresh(agents.Values - old(agents.Values))
      ensures View() == LogAppendedAll(old(View()), agent, texts, ts)
    {
      hide View;
      var b := BufferMut(agent);
      b.AppendEach(texts, ts);
      OneBufferChanged(agent);
    }

    method RegisterEvent(id: EventId, agent: AgentId)
      requires Valid()
      modifies this`eventAgents
      ensures View() == Registered(old(View()), id, agent)
    {
      eventAgents := eventAgents[id := agent];
    }

    method Pin(id: EventId, agent: AgentId, range: LogRange)
      requires Valid()
      modifies this`eventAgents, this`pinnedWindows
      ensures View() == Pinned(old(View()), id, agent, range)
    {
      eventAgents := eventAgents[id := agent];
      var start := Max(range.start - config.pinBefore, 0);
      var end := range.end + config.pinAfter;
      var window := PinnedWindow(start, []);
      if agent in agents {
        var b := agents[agent];
        window := SliceRange(Buffer(b.capacity, b.nextOffset, b.lines), start, end);
      }
      pinnedWindows := pinnedWindows[id := window];
    }

    method AppendToPinned(id: EventId, text: string, ts: Time)
      requires Valid()
      modifies this`pinnedWindows
      ensures View() == PinnedAppended(old(View()), id, text, ts)
    {
      if id in pinnedWindows {
        var w := pinnedWindows[id];
        var offset := if w.lines == [] then w.startOffset else w.lines[|w.lines| - 1].offset + 1;
        pinnedWindows := pinnedWindows[id := w.(lines := w.lines + [LogLine(offset, ts, text)])];
      }
    }

    method NextOffsetOf(agent: AgentId) returns (offset: nat)
      requires Valid()
      ensures offset == NextOffset(View(), agent)
    {
      offset := if agent in agents then agents[agent].nextOffset else 0;
    }

    method GetEventLogs(id: EventId, offset: int, limit: nat) returns (logs: Option<LogPage>)
      requires Valid()
      ensures logs == EventLogs(View(), id, offset, limit)
    {
      var capped := Min(limit, config.pageCap);
      if id in pinnedWindows {
        logs := Some(WindowLogs(pinnedWindows[id], offset, capped));
      } else if id !in eventAgents {
        logs := None;
      } else if eventAgents[id] !in agents {
        logs := Some(LogPage(0, 0, false, []));
      } else {
        var b := agents[eventAgents[id]];
        var buffer := Buffer(b.capacity, b.nextOffset, b.lines);
        logs := Some(if offset == LOG_OFFSET_TAIL then Tail(buffer, capped, config.pageCap)
                     else Page(buffer, Max(offset, 0), capped, config.pageCap));
      }
    }
  }
}
