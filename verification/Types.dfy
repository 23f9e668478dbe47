/** Vocabulary shared by every component: identifiers, events, queue entries and messages. */
module Types {

  datatype Option<+T> = None | Some(value: T)

  datatype Result<+T, +E> = Ok(value: T) | Err(error: E)

  /** Event ids are 128-bit values compared as numbers. */
  type EventId = nat
  type ClientId = nat
  type AgentId = string
  type TaskId = string

  /** Instants and durations, in nanoseconds. */
  type Time = int

  const SECOND: int := 1_000_000_000
  const MINUTE: int := 60 * SECOND

  datatype Category = Request | Error | Completed | Working {
    function Tier(): nat {
      match this
      case Request => 0
      case Error => 1
      case Completed => 2
      case Working => 3
    }
  }

  datatype Severity = Routine | Notable | Important | Critical

  datatype Operation = Build | Test | Install | Analyze | Edit | Other

  datatype Decision = Approve | Deny

  datatype EntryState = New | Seen | Dismissed

  datatype Resolution = Unresolved | PendingDelivery | Approved | Denied

  datatype LogRange = LogRange(start: nat, end: nat, pinned: bool)

  datatype LogLine = LogLine(offset: nat, ts: Time, text: string)

  /** What an adapter emits. */
  datatype RawEvent = RawEvent(
    agentId: AgentId,
    agentSeq: nat,
    taskId: Option<TaskId>,
    kind: string,
    operation: Operation,
    message: string,
    logLines: seq<string>,
    request: Option<string>)

  /** An immutable processed event. */
  datatype Event = Event(
    eventId: EventId,
    seqNo: nat,
    agentSeq: nat,
    agentId: AgentId,
    taskId: Option<TaskId>,
    ts: Time,
    category: Category,
    severity: Severity,
    kind: string,
    operation: Operation,
    message: string,
    logRange: LogRange,
    request: Option<string>)

  /** Mutable metadata of one event. */
  datatype QueueEntry = QueueEntry(
    eventId: EventId,
    tier: nat,
    score: nat,
    state: EntryState,
    resolution: Option<Resolution>,
    superseded: bool,
    escalationLevel: nat,
    seqNo: nat)
  {
    /** Neither dismissed nor superseded: listed in snapshots and rescored by ticks. */
    predicate IsLive() {
      state != Dismissed && !superseded
    }
  }

  function NewEntry(id: EventId, category: Category, seqNo: nat, score: nat): QueueEntry {
    QueueEntry(id, category.Tier(), score, New,
               if category == Request then Some(Unresolved) else None,
               false, 0, seqNo)
  }

  datatype ScoreUpdate = ScoreUpdate(eventId: EventId, score: nat, escalationLevel: nat)

  datatype StateUpdate = StateUpdate(
    eventId: EventId, state: EntryState, resolution: Option<Resolution>, superseded: bool)

  datatype CommandError =
    NoSuchEvent | NotARequest | AlreadyResolved | DeliveryPending | DeliveryFailed

  /** A human's answer, as the adapters understand it. */
  datatype RequestResponse =
    | ApproveResponse
    | DenyResponse
    | SelectOption(option: string)
    | SelectMultiple(options: seq<string>)
    | TextInput(text: string)

  /** Unicode White_Space, the set that trimming removes. */
  predicate IsWhitespace(c: char) {
    '\t' <= c <= '\r' || c == ' ' || c == '\U{0085}' || c == '\U{00A0}' || c == '\U{1680}'
    || '\U{2000}' <= c <= '\U{200A}' || c == '\U{2028}' || c == '\U{2029}' || c == '\U{202F}'
    || c == '\U{205F}' || c == '\U{3000}'
  }

  /** True when trimming leaves nothing. */
  predicate IsBlank(s: string) {
    forall c <- s :: IsWhitespace(c)
  }

  function Min(a: int, b: int): int { if a <= b then a else b }

  function Max(a: int, b: int): int { if a >= b then a else b }
}
