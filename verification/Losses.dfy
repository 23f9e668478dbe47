/** Clients that lose messages: which part of which entry they hold right, exactly. */
module Losses {
  import opened Types
  import opened Ordering
  import opened PriorityQueues
  import opened CoreMachine
  import opened Replica
  import opened Coherence
  import opened Clients
  import opened Changes

  /** What a message tells a client that knows event `k` about one part of its entry. */
  function Told(body: Body, k: EventId, a: Aspect): Option<Part> {
    match body
    case EventPush(_, entry) => if entry.eventId == k then Some(PartOf(entry, a)) else None
    case ScorePush(u) => if u.eventId == k && a == Ranking then Some(Rank(u.score, u.escalationLevel)) else None
    case StatePush(u) =>
      if u.eventId == k && a == Attention then Some(Status(u.state, u.resolution, u.superseded)) else None
    case Snapshot(entries, _) => Listed(entries, k, a)
    case _ => None
  }

  function Listed(entries: seq<QueueEntry>, k: EventId, a: Aspect): Option<Part> {
    if entries == [] then None
    else
      var last := entries[|entries| - 1];
      if last.eventId == k then Some(PartOf(last, a)) else Listed(entries[..|entries| - 1], k, a)
  }

  function ToldBy(o: Outgoing, c: ClientId, k: EventId, a: Aspect): Option<Part> {
    match o
    case ToAll(body) => Told(body, k, a)
    case ToClient(client, message) => if client == c then Told(message.body, k, a) else None
    case ToOthers(client, body) => if client == c then None else Told(body, k, a)
  }

  function Held(v: View, k: EventId, a: Aspect): Option<Part> {
    if k in v then Some(PartOf(v[k], a)) else None
  }

  // ---- a client that takes some of the messages -------------------------------------------------

  /** The view after the messages that the mask marks as taken. */
  function FoldTaken(v: View, out: seq<Outgoing>, mask: seq<bool>, c: ClientId): View
    requires |mask| == |out|
  {
    if out == [] then v
    else
      var n := |out| - 1;
      var u := FoldTaken(v, out[..n], mask[..n], c);
      if mask[n] then ApplyOut(u, out[n], c) else u
  }

  function Everything(n: nat): seq<bool> {
    seq(n, _ => true)
  }

  lemma {:induction false} TakingEverything(v: View, out: seq<Outgoing>, c: ClientId)
    ensures FoldTaken(v, out, Everything(|out|), c) == FoldOut(v, out, c)
  {
    hide ApplyOut;
    if out != [] {
      var n := |out| - 1;
      assert Everything(|out|)[..n] == Everything(n);
      TakingEverything(v, out[..n], c);
    }
  }

  lemma {:induction false} TakenAppend(v: View, first: seq<Outgoing>, m: seq<bool>, second: seq<Outgoing>, n: seq<bool>, c: ClientId)
    requires |m| == |first| && |n| == |second|
    ensures FoldTaken(v, first + second, m + n, c) == FoldTaken(FoldTaken(v, first, m, c), second, n, c)
  {
    hide ApplyOut;
    if second == [] {
      assert first + second == first && m + n == m;
    } else {
      var last := |second| - 1;
      assert (first + second)[..|first + second| - 1] == first + second[..last];
      assert (m + n)[..|first + second| - 1] == m + n[..last];
      TakenAppend(v, first, m, second[..last], n[..last], c);
    }
  }

  /** The last message taken that tells about the part. */
  function LastTaken(out: seq<Outgoing>, mask: seq<bool>, c: ClientId, k: EventId, a: Aspect): (r: Option<nat>)
    requires |mask| == |out|
    ensures r.Some? ==> r.value < |out| && mask[r.value] && ToldBy(out[r.value], c, k, a).Some?
    ensures forall i :: (if r.Some? then r.value + 1 else 0) <= i < |out| ==> !mask[i] || ToldBy(out[i], c, k, a).None?
  {
    if out == [] then None
    else
      var n := |out| - 1;
      if mask[n] && ToldBy(out[n], c, k, a).Some? then Some(n)
      else LastTaken(out[..n], mask[..n], c, k, a)
  }

  /** What a client that held `part` holds after the messages it took. */
  function Heard(part: Part, out: seq<Outgoing>, mask: seq<bool>, c: ClientId, k: EventId, a: Aspect): Part
    requires |mask| == |out|
  {
    match LastTaken(out, mask, c, k, a)
    case Some(i) => ToldBy(out[i], c, k, a).value
    case None => part
  }

  lemma {:induction false} MergeListed(v: View, entries: seq<QueueEntry>, k: EventId, a: Aspect)
    ensures Held(Merge(v, entries), k, a) == if Listed(entries, k, a).Some? then Listed(entries, k, a) else Held(v, k, a)
  {
    if entries != [] {
      MergeListed(v, entries[..|entries| - 1], k, a);
    }
  }

  lemma ApplyTold(v: View, o: Outgoing, c: ClientId, k: EventId, a: Aspect)
    requires k in v
    ensures k in ApplyOut(v, o, c)
    ensures PartOf(ApplyOut(v, o, c)[k], a) ==
              if ToldBy(o, c, k, a).Some? then ToldBy(o, c, k, a).value else PartOf(v[k], a)
  {
    hide Merge;
    var body := match o case ToAll(b) => b case ToClient(_, m) => m.body case ToOthers(_, b) => b;
    if body.Snapshot? {
      MergeListed(v, body.entries, k, a);
    }
  }

  /** A known entry's part is what the last message taken about it said, or what it was. */
  lemma {:induction false} TakenHeard(v: View, out: seq<Outgoing>, mask: seq<bool>, c: ClientId, k: EventId, a: Aspect)
    requires |mask| == |out| && k in v
    ensures k in FoldTaken(v, out, mask, c)
    ensures PartOf(FoldTaken(v, out, mask, c)[k], a) == Heard(PartOf(v[k], a), out, mask, c, k, a)
  {
    hide ApplyOut, ToldBy, PartOf;
    if out != [] {
      var n := |out| - 1;
      TakenHeard(v, out[..n], mask[..n], c, k, a);
      ApplyTold(FoldTaken(v, out[..n], mask[..n], c), out[n], c, k, a);
    }
  }

  /** Whatever changes in the queue is announced: each part of each entry is what the last announcement to
      any client said, or what it was. */
  lemma EveryChangeAnnounced(core: Core, command: Command, now: Time, id: EventId, c: ClientId, k: EventId, a: Aspect)
    requires CoreOk(core) && id !in core.events && k in core.entries
    ensures var p := Step(core, command, now, id);
            && k in p.core.entries
            && PartOf(p.core.entries[k], a) ==
                 Heard(PartOf(core.entries[k], a), p.out, Everything(|p.out|), c, k, a)
  {
    hide CoreOk, Step, PartOf, Heard;
    var p := Step(core, command, now, id);
    StepGood(core, command, now, id, core.entries, c, false);
    TakingEverything(core.entries, p.out, c);
    TakenHeard(core.entries, p.out, Everything(|p.out|), c, k, a);
  }

  // ---- over runs --------------------------------------------------------------------------------

  ghost function OutOf(s: System, input: Input): seq<Outgoing> {
    if input.command.Connect? || input.command.Disconnect? then []
    else Step(s.core, input.command, input.now, input.freshId).out
  }

  /** Everything sent in the steps from `a` up to `b`. */
  ghost function OutBetween(states: seq<System>, inputs: seq<Input>, a: nat, b: nat): seq<Outgoing>
    requires a <= b <= |inputs| && |states| == |inputs| + 1
  {
    if a == b then [] else OutBetween(states, inputs, a, b - 1) + OutOf(states[b - 1], inputs[b - 1])
  }

  /** The client stays connected, without connecting anew. */
  ghost predicate Stays(states: seq<System>, inputs: seq<Input>, a: nat, b: nat, c: ClientId)
    requires a <= b <= |inputs| && |states| == |inputs| + 1
  {
    && (forall n :: a <= n <= b ==> c in states[n].links)
    && (forall n :: a <= n < b ==> inputs[n].command != Connect(c))
  }

  lemma OneTaken(links: Links, o: Outgoing, links': Links, c: ClientId) returns (taken: bool)
    requires DeliverOne(links, o, links') && c in links'
    ensures c in links
    ensures ViewOf(links'[c]) == if taken then ApplyOut(ViewOf(links[c]), o, c) else ViewOf(links[c])
  {
    var before, after := links[c].received, links'[c].received;
    taken := after != before || (o.ToClient? && o.client != c) || (o.ToOthers? && o.client == c);
    if after != before {
      assert after[..|after| - 1] == before;
    }
  }

  lemma {:induction false} PathTaken(path: seq<Links>, out: seq<Outgoing>, c: ClientId) returns (mask: seq<bool>)
    requires DeliverPath(path, out) && c in path[|out|]
    ensures |mask| == |out| && c in path[0]
    ensures ViewOf(path[|out|][c]) == FoldTaken(ViewOf(path[0][c]), out, mask, c)
  {
    hide DeliverOne, ViewOf, ApplyOut;
    if out == [] {
      mask := [];
    } else {
      var last := |out| - 1;
      var taken := OneTaken(path[last], out[last], path[last + 1], c);
      var before := PathTaken(path[..last + 1], out[..last], c);
      mask := before + [taken];
      assert mask[..last] == before;
    }
  }

  lemma DeliverTaken(links: Links, out: seq<Outgoing>, links': Links, c: ClientId) returns (mask: seq<bool>)
    requires Deliver(links, out, links') && c in links'
    ensures |mask| == |out| && c in links
    ensures ViewOf(links'[c]) == FoldTaken(ViewOf(links[c]), out, mask, c)
  {
    var path :| DeliverPath(path, out) && path[0] == links && path[|out|] == links';
    mask := PathTaken(path, out, c);
  }

  /** A client's view after a step is the fold of the messages of that step that it took. */
  lemma StepTaken(s: System, input: Input, s': System, c: ClientId) returns (mask: seq<bool>)
    requires Next(s, input, s') && c in s.links && c in s'.links && input.command != Connect(c)
    ensures |mask| == |OutOf(s, input)|
    ensures ViewOf(s'.links[c]) == FoldTaken(ViewOf(s.links[c]), OutOf(s, input), mask, c)
  {
    hide Step, ViewOf, FoldTaken, Deliver;
    var out := Step(s.core, input.command, input.now, input.freshId).out;
    match input.command
    case Connect(_) => mask := []; NothingTaken(ViewOf(s.links[c]), c);
    case Disconnect(_) => mask := []; NothingTaken(ViewOf(s.links[c]), c);
    case SendSnapshot(k) =>
      var sent: Links :| Deliver(s.links, out, sent) &&
        s'.links == if k in sent then sent[k := sent[k].(snapshotted := true)] else sent;
      mask := DeliverTaken(s.links, out, sent, c);
      FlagKeepsView(sent[c]);
    case _ =>
      mask := DeliverTaken(s.links, out, s'.links, c);
  }

  lemma NothingTaken(v: View, c: ClientId)
    ensures FoldTaken(v, [], [], c) == v
  {
  }

  lemma FlagKeepsView(l: Link)
    ensures ViewOf(l.(snapshotted := true)) == ViewOf(l)
  {
  }

  /** Over any stretch of any run, a client that stayed connected folded some of the messages sent. */
  lemma {:induction false} RunTaken(states: seq<System>, inputs: seq<Input>, a: nat, b: nat, c: ClientId)
      returns (mask: seq<bool>)
    requires Run(states, inputs) && a <= b <= |inputs| && Stays(states, inputs, a, b, c)
    ensures |mask| == |OutBetween(states, inputs, a, b)|
    ensures ViewOf(states[b].links[c]) == FoldTaken(ViewOf(states[a].links[c]), OutBetween(states, inputs, a, b), mask, c)
  {
    hide Next, ViewOf, OutOf, FoldTaken;
    if a == b {
      mask := [];
      NothingTaken(ViewOf(states[a].links[c]), c);
    } else {
      var before := RunTaken(states, inputs, a, b - 1, c);
      var more := StepTaken(states[b - 1], inputs[b - 1], states[b], c);
      mask := before + more;
      TakenAppend(ViewOf(states[a].links[c]), OutBetween(states, inputs, a, b - 1), before,
                  OutOf(states[b - 1], inputs[b - 1]), more, c);
    }
  }

  lemma SilentStep(s: System, input: Input, s': System)
    requires Next(s, input, s') && (input.command.Connect? || input.command.Disconnect?)
    ensures s'.core == s.core && OutOf(s, input) == []
  {
  }

  lemma {:induction false} HeardAppend(part: Part, first: seq<Outgoing>, m: seq<bool>, second: seq<Outgoing>, n: seq<bool>,
                                       c: ClientId, k: EventId, a: Aspect)
    requires |m| == |first| && |n| == |second|
    ensures Heard(part, first + second, m + n, c, k, a) == Heard(Heard(part, first, m, c, k, a), second, n, c, k, a)
  {
    hide ToldBy;
    if second == [] {
      assert first + second == first && m + n == m;
    } else {
      var last := |second| - 1;
      assert (first + second)[..|first + second| - 1] == first + second[..last];
      assert (m + n)[..|first + second| - 1] == m + n[..last];
      HeardAppend(part, first, m, second[..last], n[..last], c, k, a);
    }
  }

  /** Over any stretch of any run, each part of each entry of the queue is what the last announcement to any
      client said, or what it was. */
  lemma {:induction false} RunAnnounced(states: seq<System>, inputs: seq<Input>, i: nat, j: nat, c: ClientId, k: EventId, a: Aspect)
    requires Run(states, inputs) && i <= j <= |inputs| && k in states[i].core.entries
    ensures k in states[j].core.entries
    ensures var out := OutBetween(states, inputs, i, j);
            PartOf(states[j].core.entries[k], a) ==
              Heard(PartOf(states[i].core.entries[k], a), out, Everything(|out|), c, k, a)
  {
    hide Next, CoreOk, PartOf, OutOf, Heard;
    if i == j {
      HeardNothing(PartOf(states[i].core.entries[k], a), c, k, a);
      assert Everything(0) == [];
    } else {
      RunAnnounced(states, inputs, i, j - 1, c, k, a);
      RunOk(states, inputs, j - 1);
      var before, more := OutBetween(states, inputs, i, j - 1), OutOf(states[j - 1], inputs[j - 1]);
      StepAnnounced(states[j - 1], inputs[j - 1], states[j], c, k, a);
      assert Everything(|before|) + Everything(|more|) == Everything(|before + more|);
      HeardAppend(PartOf(states[i].core.entries[k], a), before, Everything(|before|), more, Everything(|more|), c, k, a);
    }
  }

  lemma HeardNothing(part: Part, c: ClientId, k: EventId, a: Aspect)
    ensures Heard(part, [], [], c, k, a) == part
  {
  }

  lemma StepAnnounced(s: System, input: Input, s': System, c: ClientId, k: EventId, a: Aspect)
    requires SystemOk(s) && Next(s, input, s') && k in s.core.entries
    ensures k in s'.core.entries
    ensures var out := OutOf(s, input);
            PartOf(s'.core.entries[k], a) == Heard(PartOf(s.core.entries[k], a), out, Everything(|out|), c, k, a)
  {
    hide CoreOk, Step, PartOf, Heard, LinksNext;
    if input.command.Connect? || input.command.Disconnect? {
      SilentStep(s, input, s');
      HeardNothing(PartOf(s.core.entries[k], a), c, k, a);
      assert Everything(0) == [];
    } else {
      EveryChangeAnnounced(s.core, input.command, input.now, input.freshId, c, k, a);
    }
  }

  lemma {:induction false} TakenKeys(v: View, w: View, out: seq<Outgoing>, mask: seq<bool>, c: ClientId)
    requires |mask| == |out| && v.Keys <= w.Keys
    ensures FoldTaken(v, out, mask, c).Keys <= FoldOut(w, out, c).Keys
  {
    hide ApplyOut;
    if out != [] {
      var n := |out| - 1;
      TakenKeys(v, w, out[..n], mask[..n], c);
      ApplyKeys(FoldTaken(v, out[..n], mask[..n], c), FoldOut(w, out[..n], c), out[n], c);
    }
  }

  lemma ApplyKeys(v: View, w: View, o: Outgoing, c: ClientId)
    requires v.Keys <= w.Keys
    ensures ApplyOut(v, o, c).Keys <= ApplyOut(w, o, c).Keys && w.Keys <= ApplyOut(w, o, c).Keys
  {
    hide Merge;
    var body := match o case ToAll(b) => b case ToClient(_, m) => m.body case ToOthers(_, b) => b;
    if body.Snapshot? {
      MergeKeys(v, w, body.entries);
    }
  }

  lemma {:induction false} MergeKeys(v: View, w: View, entries: seq<QueueEntry>)
    requires v.Keys <= w.Keys
    ensures Merge(v, entries).Keys <= Merge(w, entries).Keys && w.Keys <= Merge(w, entries).Keys
  {
    if entries != [] {
      MergeKeys(v, w, entries[..|entries| - 1]);
    }
  }

  lemma StepKnown(s: System, input: Input, s': System, c: ClientId)
    requires SystemOk(s) && Next(s, input, s') && c in s.links && c in s'.links && input.command != Connect(c)
    requires ViewOf(s.links[c]).Keys <= s.core.entries.Keys
    ensures ViewOf(s'.links[c]).Keys <= s'.core.entries.Keys
  {
    hide CoreOk, Step, ViewOf, FoldTaken, LinksNext;
    var mask := StepTaken(s, input, s', c);
    if input.command.Connect? || input.command.Disconnect? {
      SilentStep(s, input, s');
      NothingTaken(ViewOf(s.links[c]), c);
      assert mask == [];
    } else {
      TakenKeys(ViewOf(s.links[c]), s.core.entries, OutOf(s, input), mask, c);
      StepGood(s.core, input.command, input.now, input.freshId, s.core.entries, c, false);
    }
  }

  /** Whatever a client lost, it only knows events that the queue has. */
  lemma {:induction false} KnownAreQueued(states: seq<System>, inputs: seq<Input>, i: nat, c: ClientId)
    requires Run(states, inputs) && i < |states| && c in states[i].links
    ensures ViewOf(states[i].links[c]).Keys <= states[i].core.entries.Keys
  {
    hide Next, ViewOf, CoreOk, Coherent;
    if i > 0 {
      assert Next(states[i - 1], inputs[i - 1], states[i]);
      if inputs[i - 1].command == Connect(c) {
        NewlyConnected(states[i - 1], inputs[i - 1], states[i], c);
      } else {
        StillConnected(states[i - 1], inputs[i - 1], states[i], c);
        KnownAreQueued(states, inputs, i - 1, c);
        RunOk(states, inputs, i - 1);
        StepKnown(states[i - 1], inputs[i - 1], states[i], c);
      }
    }
  }

  lemma NewlyConnected(s: System, input: Input, s': System, c: ClientId)
    requires Next(s, input, s') && input.command == Connect(c) && c in s'.links
    ensures ViewOf(s'.links[c]).Keys <= s'.core.entries.Keys
  {
    hide Step;
  }

  lemma StillConnected(s: System, input: Input, s': System, c: ClientId)
    requires Next(s, input, s') && c in s'.links && input.command != Connect(c)
    ensures c in s.links
  {
    hide Step, ViewOf, Deliver;
    var out := Step(s.core, input.command, input.now, input.freshId).out;
    match input.command
    case Connect(_) =>
    case Disconnect(_) =>
    case SendSnapshot(k) =>
      var sent: Links :| Deliver(s.links, out, sent) &&
        s'.links == if k in sent then sent[k := sent[k].(snapshotted := true)] else sent;
      var mask := DeliverTaken(s.links, out, sent, c);
    case _ => var mask := DeliverTaken(s.links, out, s'.links, c);
  }

  /** For a client that held `held` of a part and now holds `now`, while the queue went from `queued` to
      `queue`: the queue has what the last announcement said, and the client is right if and only if the last
      announcement it took, or `held` if it took none, says the same. If nothing was announced, neither moved. */
  ghost predicate RightExactly(held: Part, now: Part, queued: Part, queue: Part, out: seq<Outgoing>, mask: seq<bool>,
                               c: ClientId, k: EventId, a: Aspect)
    requires |mask| == |out|
  {
    var told, taken := LastTaken(out, Everything(|out|), c, k, a), LastTaken(out, mask, c, k, a);
    && (told.Some? ==> queue == ToldBy(out[told.value], c, k, a).value)
    && (told.None? ==> now == held && queue == queued)
    && (now == queue <==>
          if told.None? then held == queued
          else (if taken.Some? then ToldBy(out[taken.value], c, k, a).value else held) == ToldBy(out[told.value], c, k, a).value)
  }

  ghost predicate RightAt(v: View, v': View, queued: Entries, queue: Entries, out: seq<Outgoing>, mask: seq<bool>,
                          c: ClientId, k: EventId, a: Aspect)
    requires |mask| == |out|
  {
    k in v ==>
      && k in queued && k in v' && k in queue
      && RightExactly(PartOf(v[k], a), PartOf(v'[k], a), PartOf(queued[k], a), PartOf(queue[k], a), out, mask, c, k, a)
  }

  lemma HeardIsRight(held: Part, queued: Part, out: seq<Outgoing>, mask: seq<bool>, c: ClientId, k: EventId, a: Aspect)
    requires |mask| == |out|
    ensures RightExactly(held, Heard(held, out, mask, c, k, a), queued, Heard(queued, out, Everything(|out|), c, k, a),
                         out, mask, c, k, a)
  {
    hide ToldBy, LastTaken;
    NoneToTake(out, mask, c, k, a);
  }

  /** Exactly when a client that lost messages is right. For any client that stayed connected and knew an
      event, whether it held it right or not: it took some of the messages sent since. The queue has what the
      last announcement of a part said, taken or not; so the client is right about the part if and only if
      the last announcement of it that it took, or what it held if it took none, says the same as the last one
      sent. If none was sent, it is right if and only if it was. */
  lemma LossExactly(states: seq<System>, inputs: seq<Input>, i: nat, j: nat, c: ClientId) returns (mask: seq<bool>)
    requires Run(states, inputs) && i <= j <= |inputs| && Stays(states, inputs, i, j, c)
    ensures var out := OutBetween(states, inputs, i, j);
            var v, v', entries := ViewOf(states[i].links[c]), ViewOf(states[j].links[c]), states[j].core.entries;
            && |mask| == |out| && v' == FoldTaken(v, out, mask, c)
            && forall k: EventId, a: Aspect :: RightAt(v, v', states[i].core.entries, entries, out, mask, c, k, a)
  {
    hide Next, ViewOf, OutBetween, FoldTaken, RightAt, LastTaken;
    mask := RunTaken(states, inputs, i, j, c);
    var out := OutBetween(states, inputs, i, j);
    var v, v', entries := ViewOf(states[i].links[c]), ViewOf(states[j].links[c]), states[j].core.entries;
    KnownAreQueued(states, inputs, i, c);
    forall k: EventId, a: Aspect ensures RightAt(v, v', states[i].core.entries, entries, out, mask, c, k, a) {
      LossAt(states, inputs, i, j, c, v, mask, k, a);
    }
  }

  lemma LossAt(states: seq<System>, inputs: seq<Input>, i: nat, j: nat, c: ClientId, v: View, mask: seq<bool>, k: EventId, a: Aspect)
    requires Run(states, inputs) && i <= j <= |inputs| && |mask| == |OutBetween(states, inputs, i, j)|
    requires v.Keys <= states[i].core.entries.Keys
    ensures var out := OutBetween(states, inputs, i, j);
            RightAt(v, FoldTaken(v, out, mask, c), states[i].core.entries, states[j].core.entries, out, mask, c, k, a)
  {
    hide Next, OutBetween, FoldTaken, PartOf, Heard, RightExactly, LastTaken;
    if k in v {
      var out := OutBetween(states, inputs, i, j);
      TakenHeard(v, out, mask, c, k, a);
      RunAnnounced(states, inputs, i, j, c, k, a);
      HeardIsRight(PartOf(v[k], a), PartOf(states[i].core.entries[k], a), out, mask, c, k, a);
    }
  }

  lemma NoneToTake(out: seq<Outgoing>, mask: seq<bool>, c: ClientId, k: EventId, a: Aspect)
    requires |mask| == |out|
    ensures LastTaken(out, Everything(|out|), c, k, a).None? ==> LastTaken(out, mask, c, k, a).None?
  {
    hide ToldBy;
    assert forall n :: 0 <= n < |out| ==> Everything(|out|)[n];
  }

  /** For one step of a client that was right about a part before it and took nothing about it: it is still
      right exactly when the step does not touch the part, and a step that touches it announces it. */
  lemma LossHarmfulExactly(core: Core, command: Command, now: Time, id: EventId, v: View, mask: seq<bool>, c: ClientId,
                           k: EventId, a: Aspect)
    requires CoreOk(core) && id !in core.events && k in v && k in core.entries
    requires PartOf(v[k], a) == PartOf(core.entries[k], a)
    requires |mask| == |Step(core, command, now, id).out|
    requires LastTaken(Step(core, command, now, id).out, mask, c, k, a).None?
    ensures var p := Step(core, command, now, id);
            var v' := FoldTaken(v, p.out, mask, c);
            && k in v' && k in p.core.entries
            && (PartOf(v'[k], a) == PartOf(p.core.entries[k], a) <==> !Touches(core, command, now, id, k, a))
            && (Touches(core, command, now, id, k, a) ==> LastTaken(p.out, Everything(|p.out|), c, k, a).Some?)
  {
    hide CoreOk, Step, PartOf, ToldBy, LastTaken, Touches;
    var p := Step(core, command, now, id);
    TakenHeard(v, p.out, mask, c, k, a);
    EveryChangeAnnounced(core, command, now, id, c, k, a);
    TouchesExactly(core, command, now, id, k, a);
  }

  /** A part that a step leaves as it was can go wrong all the same: when an answer finds the channel full, a
      client that takes the announcement that it is pending and loses the one that it is open again. */
  lemma ReopeningLost(core: Core, v: View, client: ClientId, requestId: Option<string>, id: EventId, decision: Decision,
                      response: RequestResponse, now: Time, c: ClientId) returns (mask: seq<bool>)
    requires CoreOk(core) && Tracks(v, core.entries, None) && id in v
    requires core.entries[id].resolution == Some(Unresolved) && core.responder.Some? && !Accepts(core.responder.value)
    ensures var p := RespondStep(Pipe(core, []), client, requestId, id, decision, response, now);
            && |mask| == |p.out| && id in p.core.entries && id in FoldTaken(v, p.out, mask, c)
            && PartOf(p.core.entries[id], Attention) == PartOf(core.entries[id], Attention)
            && FoldTaken(v, p.out, mask, c)[id].resolution == Some(PendingDelivery)
  {
    hide UpdateScore, ResponseText, Accepts, CoreOk;
    KeyOfEntry(core, id);
    var p := Pipe(core, []);
    var e := core.entries[id].(resolution := Some(PendingDelivery));
    var pending := p.(core := core.(entries := core.entries[id := e],
                                    metrics := core.metrics.(responses := core.metrics.responses + 1)));
    UpdateScoreFrame(pending, id, now);
    var scored := UpdateScore(pending, id, now);
    var accepted := AcceptResponse(p, client, id, decision, response, now);
    assert accepted.out == scored.out + [ToAll(StatePush(StateOf(e)))] + [ToOthers(client, RespondForward(id, decision))];
    var settled := accepted.(core := accepted.core.(entries :=
      accepted.core.entries[id := accepted.core.entries[id].(resolution := Some(Unresolved))]));
    UpdateScoreFrame(settled, id, now);
    var out := RespondStep(p, client, requestId, id, decision, response, now).out;
    var j := |scored.out|;
    assert out[j] == ToAll(StatePush(StateOf(e)));
    mask := seq(|out|, n => n == j);
    OnlyTaken(out, mask, j, c, id, Attention);
    TakenHeard(v, out, mask, c, id, Attention);
  }

  // ---- snapshots ------------------------------------------------------------------------------------

  lemma {:induction false} MergeExact(v: View, entries: Entries, listed: seq<QueueEntry>)
    requires forall e :: e in listed ==> e.eventId in entries && entries[e.eventId] == e
    ensures var w := Merge(v, listed);
            && (forall k :: k in w <==> k in v || (k in entries && entries[k] in listed && entries[k].eventId == k))
            && (forall k :: k in w ==>
                  w[k] == if k in entries && entries[k] in listed && entries[k].eventId == k then entries[k] else v[k])
  {
    if listed != [] {
      var init, last := listed[..|listed| - 1], listed[|listed| - 1];
      MergeExact(v, entries, init);
      assert forall e :: e in listed <==> e in init || e == last;
    }
  }

  /** A view after a snapshot: every live entry as it is, every other one as it was held. */
  ghost predicate Resynced(v: View, w: View, entries: Entries) {
    && (forall k :: k in w <==> k in v || (k in entries && entries[k].IsLive()))
    && (forall k :: k in w ==> w[k] == if k in entries && entries[k].IsLive() then entries[k] else v[k])
  }

  lemma SnapshotMerges(core: Core, v: View)
    requires CoreOk(core)
    ensures Resynced(v, Apply(v, SnapshotBody(core)), core.entries)
  {
    hide CoreOk, EventsOf, Merge, OrderedSnapshot, QueueEntry.IsLive;
    WellKeyedOf(core);
    SnapshotIsLiveInOrder(core.entries);
    var listed := OrderedSnapshot(core.entries);
    forall e ensures e in listed <==> e in LiveEntries(core.entries) {
      assert e in Elements(listed) <==> e in listed;
    }
    MergeExact(v, core.entries, listed);
    forall k | k in core.entries ensures core.entries[k] in listed <==> core.entries[k].IsLive() {
      if core.entries[k] in listed {
        assert core.entries[k] in LiveEntries(core.entries);
      }
    }
  }

  lemma SnapshotTaken(s: System, input: Input, s': System, c: ClientId)
    requires Next(s, input, s') && input.command == SendSnapshot(c) && c in s.links && c in s'.links
    requires s'.links[c].received != s.links[c].received
    ensures ViewOf(s'.links[c]) == Apply(ViewOf(s.links[c]), SnapshotBody(s.core)) && s'.core == s.core
  {
    hide SnapshotBody, ViewOf;
    var out := Step(s.core, input.command, input.now, input.freshId).out;
    assert out == [ToClient(c, Message(None, SnapshotBody(s.core)))];
    var sent: Links :| Deliver(s.links, out, sent) &&
      s'.links == if c in sent then sent[c := sent[c].(snapshotted := true)] else sent;
    var path :| DeliverPath(path, out) && path[0] == s.links && path[|out|] == sent;
    assert DeliverOne(path[0], out[0], path[1]);
    ReceivedOneMore(s.links[c], s'.links[c], SnapshotBody(s.core));
  }

  lemma ReceivedOneMore(l: Link, l': Link, body: Body)
    requires l'.received == l.received + [body]
    ensures ViewOf(l') == Apply(ViewOf(l), body)
  {
    hide Apply;
    assert l'.received[..|l.received|] == l.received;
  }

  /** What a snapshot repairs. A client that takes one, whatever it had lost, is right about every live entry
      from then on; an entry that is dead in the queue it holds as before, right or wrong, since snapshots do
      not list it. So it is right about everything it knows exactly if it was right about the dead entries it
      knew. */
  lemma SnapshotResyncs(states: seq<System>, inputs: seq<Input>, i: nat, c: ClientId)
    requires Run(states, inputs) && i < |inputs| && inputs[i].command == SendSnapshot(c)
    requires c in states[i].links && c in states[i + 1].links
    requires states[i + 1].links[c].received != states[i].links[c].received
    ensures var v, v', entries := ViewOf(states[i].links[c]), ViewOf(states[i + 1].links[c]), states[i + 1].core.entries;
            && entries == states[i].core.entries && v.Keys <= entries.Keys && v'.Keys <= entries.Keys
            && Resynced(v, v', entries)
            && ((forall k :: k in v' ==> v'[k] == entries[k]) <==>
                  forall k :: k in v && !entries[k].IsLive() ==> v[k] == entries[k])
  {
    hide Next, ViewOf, CoreOk, SnapshotBody, QueueEntry.IsLive, Apply;
    RunOk(states, inputs, i);
    KnownAreQueued(states, inputs, i, c);
    KnownAreQueued(states, inputs, i + 1, c);
    assert Next(states[i], inputs[i], states[i + 1]);
    SnapshotTaken(states[i], inputs[i], states[i + 1], c);
    SnapshotMerges(states[i].core, ViewOf(states[i].links[c]));
  }

  lemma {:induction false} OnlyTaken(out: seq<Outgoing>, mask: seq<bool>, j: nat, c: ClientId, k: EventId, a: Aspect)
    requires |mask| == |out| && j < |out| && ToldBy(out[j], c, k, a).Some?
    requires forall n :: 0 <= n < |out| ==> (mask[n] <==> n == j)
    ensures LastTaken(out, mask, c, k, a) == Some(j)
  {
    hide ToldBy;
    var n := |out| - 1;
    if n != j {
      OnlyTaken(out[..n], mask[..n], j, c, k, a);
    }
  }
}
