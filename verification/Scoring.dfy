/** Scores order entries within a tier. */
module Scoring {
  import opened Types

  const RECENCY_MAX_BONUS: nat := 20
  const RECENCY_WINDOW_SECS: nat := 30 * 60
  const ESCALATION_LEVEL_1_BONUS: nat := 30
  const ESCALATION_LEVEL_2_BONUS: nat := 60
  const SEEN_PENALTY: nat := 15
  const RESOLVED_PENALTY: nat := 40

  function BaseScore(severity: Severity): nat {
    match severity
    case Routine => 10
    case Notable => 25
    case Important => 45
    case Critical => 70
  }

  /** Rounds `RECENCY_MAX_BONUS * remaining / RECENCY_WINDOW_SECS`, halves upward. */
  function RecencyBonus(category: Category, ageSeconds: int): nat {
    if category == Working then 0
    else if ageSeconds <= 0 then RECENCY_MAX_BONUS
    else if ageSeconds >= RECENCY_WINDOW_SECS then 0
    else (RECENCY_WINDOW_SECS - ageSeconds + 45) / 90
  }

  function EscalationBonus(category: Category, level: nat): nat {
    if category != Working then 0
    else if level == 0 then 0
    else if level == 1 then ESCALATION_LEVEL_1_BONUS
    else ESCALATION_LEVEL_2_BONUS
  }

  function SeenPenalty(state: EntryState): nat {
    if state == Seen then SEEN_PENALTY else 0
  }

  function ResolvedPenalty(resolution: Option<Resolution>): nat {
    if resolution == Some(Approved) || resolution == Some(Denied) then RESOLVED_PENALTY else 0
  }

  /** Whole seconds of a duration, truncated toward zero. */
  function NumSeconds(d: Time): int {
    if d >= 0 then d / SECOND else -((-d) / SECOND)
  }

  function Score(entry: QueueEntry, event: Event, now: Time): nat {
    var age := Max(NumSeconds(now - event.ts), 0);
    var total := BaseScore(event.severity) + RecencyBonus(event.category, age)
               + EscalationBonus(event.category, entry.escalationLevel)
               - SeenPenalty(entry.state) - ResolvedPenalty(entry.resolution);
    Max(0, Min(total, 100))
  }

  lemma ScoreIgnoresScore(e: QueueEntry, score: nat, event: Event, now: Time)
    ensures Score(e.(score := score), event, now) == Score(e, event, now)
  {
  }

  lemma ScoreInRange(entry: QueueEntry, event: Event, now: Time)
    ensures 0 <= Score(entry, event, now) <= 100
  {
  }

  /** The recency bonus is the integer nearest to the exact linear decay, and it never grows with
      age. */
  lemma RecencyDecays(category: Category, age: int, later: int)
    requires age <= later
    ensures RecencyBonus(category, later) <= RecencyBonus(category, age) <= RECENCY_MAX_BONUS
    ensures category != Working && 0 <= age <= RECENCY_WINDOW_SECS ==>
              var exact := RECENCY_MAX_BONUS as real * (RECENCY_WINDOW_SECS - age) as real
                           / RECENCY_WINDOW_SECS as real;
              exact - 0.5 < RecencyBonus(category, age) as real <= exact + 0.5
  {
    if category != Working && 0 <= age <= RECENCY_WINDOW_SECS {
      var remaining := RECENCY_WINDOW_SECS - age;
      assert RECENCY_MAX_BONUS as real * remaining as real / RECENCY_WINDOW_SECS as real
          == remaining as real / 90.0;
      assert RecencyBonus(category, age) == (remaining + 45) / 90;
      var r := RecencyBonus(category, age);
      assert 90 * r <= remaining + 45 < 90 * r + 90;
    }
  }

  /** Categories that are only ever informative carry the two lowest severities. */
  predicate LowSeverity(severity: Severity) {
    severity == Routine || severity == Notable
  }

  /** Severities from the least to the most. */
  function Gravity(severity: Severity): nat {
    match severity
    case Routine => 0
    case Notable => 1
    case Important => 2
    case Critical => 3
  }

  /** What an entry is worth by its severity alone: new, not escalated and not resolved, and not Working; when
      it has just arrived, a quarter and half an hour later. Work gets no bonus for being recent. */
  lemma ScoresBySeverity(entry: QueueEntry, event: Event, now: Time)
    requires entry.state == New && entry.escalationLevel == 0
    requires entry.resolution != Some(Approved) && entry.resolution != Some(Denied)
    ensures var worth := [10, 25, 45, 70][Gravity(event.severity)];
            && (event.category == Working ==> Score(entry, event, now) == worth)
            && (event.category != Working && now <= event.ts ==> Score(entry, event, now) == worth + 20)
            && (event.category != Working && now == event.ts + 15 * 60 * 1_000_000_000 ==>
                  Score(entry, event, now) == worth + 10)
            && (event.category != Working && now >= event.ts + 30 * 60 * 1_000_000_000 ==> Score(entry, event, now) == worth)
  {
    if now >= event.ts + 30 * 60 * 1_000_000_000 {
      assert (now - event.ts) / SECOND >= 30 * 60;
    }
  }

  /** Only work is ever escalated, and it is never severe. */
  predicate Ordinary(entry: QueueEntry, event: Event) {
    entry.escalationLevel > 0 ==> event.category == Working && LowSeverity(event.severity) && entry.escalationLevel <= 2
  }

  /** Reading an entry costs exactly 15, being approved or denied exactly 40, down to zero; waiting for
      delivery and dismissal cost nothing. */
  lemma AttentionCosts(entry: QueueEntry, event: Event, now: Time)
    requires Ordinary(entry, event)
    ensures Score(entry.(state := Seen), event, now) == Max(Score(entry.(state := New), event, now) - 15, 0)
    ensures Score(entry.(state := Dismissed), event, now) == Score(entry.(state := New), event, now)
    ensures entry.resolution == Some(Unresolved) ==>
              && Score(entry.(resolution := Some(PendingDelivery)), event, now) == Score(entry, event, now)
              && Score(entry.(resolution := Some(Approved)), event, now) == Max(Score(entry, event, now) - 40, 0)
              && Score(entry.(resolution := Some(Denied)), event, now) == Max(Score(entry, event, now) - 40, 0)
  {
  }

  /** An escalation adds exactly 30, and another 30, to work that was not read yet. */
  lemma EscalationAdds(entry: QueueEntry, event: Event, now: Time)
    requires event.category == Working && LowSeverity(event.severity) && entry.state != Seen && entry.resolution == None
    ensures var base := Score(entry.(escalationLevel := 0), event, now);
            && Score(entry.(escalationLevel := 1), event, now) == base + 30
            && Score(entry.(escalationLevel := 2), event, now) == base + 60
  {
  }

  /** With everything else equal, the more severe scores higher, unless both are at the same end of the scale. */
  lemma SeverityRaisesScore(entry: QueueEntry, event: Event, graver: Event, now: Time)
    requires graver.category == event.category && graver.ts == event.ts
    requires Gravity(event.severity) < Gravity(graver.severity)
    ensures var low, high := Score(entry, event, now), Score(entry, graver, now);
            low < high || low == high == 0 || low == high == 100
  {
  }

  /** For a Working entry a higher escalation level always means a strictly higher score, whatever
      happened to its attention state in between. */
  lemma EscalationRaisesScore(e: QueueEntry, raised: QueueEntry, event: Event, then_: Time, now: Time)
    requires event.category == Working && LowSeverity(event.severity)
    requires e.escalationLevel < raised.escalationLevel <= 2
    requires e.resolution == None && raised.resolution == None
    ensures Score(e, event, then_) < Score(raised, event, now)
  {
  }
}
