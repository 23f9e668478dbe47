/** The core together with its connected clients, over whole runs. A sink may accept a message, fail
    and be dropped, or fail in a way that loses the message but keeps the client. */
module Clients {
  import opened Types
  import opened Ordering
  import opened PriorityQueues
  import opened Tracker
  import opened LogStores
  import opened CoreMachine
  import opened Replica
  import opened Coherence

  /** What one connected client accepted since it connected; whether a message to it was lost; and
      whether it was sent a snapshot. */
  datatype Link = Link(received: seq<Body>, lossy: bool, snapshotted: bool)

  type Links = map<ClientId, Link>

  predicate Took(l: Link, body: Body, l': Link) {
    || l' == l.(received := l.received + [body])
    || l' == l.(lossy := true)
  }

  /** Forwarded responses are sent without looking at the result; losing one is harmless. */
  predicate TookForward(l: Link, body: Body, l': Link) {
    || l' == l.(received := l.received + [body])
    || l' == l.(lossy := l.lossy || !body.RespondForward?)
  }

  /** One outgoing message reaches the clients; those whose sink is full or closed are dropped. */
  ghost predicate DeliverOne(links: Links, o: Outgoing, links': Links) {
    match o
    case ToAll(body) =>
      && links'.Keys <= links.Keys
      && forall c :: c in links' ==> Took(links[c], body, links'[c])
    case ToClient(client, message) =>
      && links'.Keys <= links.Keys && links.Keys <= links'.Keys + {client}
      && forall c :: c in links' ==> if c == client then Took(links[c], message.body, links'[c]) else links'[c] == links[c]
    case ToOthers(client, body) =>
      && links'.Keys == links.Keys
      && forall c :: c in links' ==> if c == client then links'[c] == links[c] else TookForward(links[c], body, links'[c])
  }

  /** `path` lists the links after each outgoing message. */
  ghost predicate DeliverPath(path: seq<Links>, out: seq<Outgoing>) {
    && |path| == |out| + 1
    && forall i :: 0 <= i < |out| ==> DeliverOne(path[i], out[i], path[i + 1])
  }

  ghost predicate Deliver(links: Links, out: seq<Outgoing>, links': Links) {
    exists path :: DeliverPath(path, out) && path[0] == links && path[|out|] == links'
  }

  ghost function ViewOf(l: Link): View {
    Fold(map[], l.received)
  }

  /** A message reaches a client's view, or it is lost and the client is marked. */
  lemma DeliverOneFolds(links: Links, o: Outgoing, links': Links, c: ClientId)
    requires DeliverOne(links, o, links') && c in links' && !links'[c].lossy
    ensures c in links && !links[c].lossy && links'[c].snapshotted == links[c].snapshotted
    ensures ViewOf(links'[c]) == ApplyOut(ViewOf(links[c]), o, c)
  {
    var before, after := links[c].received, links'[c].received;
    if after != before {
      assert after[..|after| - 1] == before;
    }
  }

  lemma {:induction false} PathFolds(path: seq<Links>, out: seq<Outgoing>, c: ClientId)
    requires DeliverPath(path, out)
    requires c in path[|out|] && !path[|out|][c].lossy
    ensures c in path[0] && !path[0][c].lossy && path[|out|][c].snapshotted == path[0][c].snapshotted
    ensures ViewOf(path[|out|][c]) == FoldOut(ViewOf(path[0][c]), out, c)
  {
    hide DeliverOne, ViewOf, ApplyOut;
    if out != [] {
      var last := |out| - 1;
      DeliverOneFolds(path[last], out[last], path[last + 1], c);
      PathFolds(path[..last + 1], out[..last], c);
    }
  }

  /** A client that lost nothing has folded exactly what was sent to it. */
  lemma DeliverFolds(links: Links, out: seq<Outgoing>, links': Links, c: ClientId)
    requires Deliver(links, out, links') && c in links' && !links'[c].lossy
    ensures c in links && !links[c].lossy && links'[c].snapshotted == links[c].snapshotted
    ensures ViewOf(links'[c]) == FoldOut(ViewOf(links[c]), out, c)
  {
    var path :| DeliverPath(path, out) && path[0] == links && path[|out|] == links';
    PathFolds(path, out, c);
  }

  lemma DeliverNothing(links: Links)
    ensures Deliver(links, [], links)
  {
    assert DeliverPath([links], []);
  }

  lemma DeliverMore(links: Links, out: seq<Outgoing>, mid: Links, o: Outgoing, links': Links)
    requires Deliver(links, out, mid) && DeliverOne(mid, o, links')
    ensures Deliver(links, out + [o], links')
  {
    hide DeliverOne;
    var path :| DeliverPath(path, out) && path[0] == links && path[|out|] == mid;
    var longer := path + [links'];
    assert DeliverPath(longer, out + [o]) by {
      forall i | 0 <= i < |out + [o]| ensures DeliverOne(longer[i], (out + [o])[i], longer[i + 1]) {
        if i < |out| {
          assert DeliverOne(path[i], out[i], path[i + 1]);
        }
      }
    }
  }

  // ---- runs -----------------------------------------------------------------------------------

  datatype System = System(core: Core, links: Links, clock: Time)

  datatype Input = Input(command: Command, now: Time, freshId: EventId)

  ghost predicate LinksNext(s: System, input: Input, links': Links) {
    match input.command
    case Connect(c) => links' == s.links[c := Link([], false, false)]
    case Disconnect(c) => links' == s.links - {c}
    case SendSnapshot(c) =>
      exists sent: Links :: Deliver(s.links, Step(s.core, input.command, input.now, input.freshId).out, sent) &&
        links' == if c in sent then sent[c := sent[c].(snapshotted := true)] else sent
    case _ => Deliver(s.links, Step(s.core, input.command, input.now, input.freshId).out, links')
  }

  /** One step: the clock does not run backwards and generated event ids are fresh. */
  ghost predicate Next(s: System, input: Input, s': System) {
    && s.clock <= input.now == s'.clock
    && input.freshId !in s.core.events
    && s'.core == Step(s.core, input.command, input.now, input.freshId).core
    && LinksNext(s, input, s'.links)
  }

  ghost predicate Initial(s: System) {
    exists config, thresholds, responder ::
      s.core == Fresh0(config, thresholds, responder) && s.links == map[]
  }

  ghost predicate Run(states: seq<System>, inputs: seq<Input>) {
    && |states| == |inputs| + 1
    && Initial(states[0])
    && forall i :: 0 <= i < |inputs| ==> Next(states[i], inputs[i], states[i + 1])
  }

  ghost predicate Coherent(l: Link, entries: Entries) {
    !l.lossy ==>
      && Tracks(ViewOf(l), entries, None)
      && (l.snapshotted ==> Complete(ViewOf(l), entries, {}))
  }

  ghost predicate SystemOk(s: System) {
    CoreOk(s.core) && forall c :: c in s.links ==> Coherent(s.links[c], s.core.entries)
  }

  lemma StepOk(core: Core, input: Input)
    requires CoreOk(core) && input.freshId !in core.events
    ensures CoreOk(Step(core, input.command, input.now, input.freshId).core)
  {
    StepGood(core, input.command, input.now, input.freshId, map[], 0, false);
  }

  /** The views of the clients that stayed connected follow the step. */
  lemma DeliveredCoherent(s: System, input: Input, links': Links, c: ClientId)
    requires SystemOk(s) && input.freshId !in s.core.events
    requires var p := Step(s.core, input.command, input.now, input.freshId);
             Deliver(s.links, p.out, links') && c in links'
    ensures var p := Step(s.core, input.command, input.now, input.freshId);
            && Coherent(links'[c], p.core.entries)
            && (input.command == SendSnapshot(c) ==> Coherent(links'[c].(snapshotted := true), p.core.entries))
  {
    hide Step, CoreOk, Tracks, Complete;
    var p := Step(s.core, input.command, input.now, input.freshId);
    if !links'[c].lossy {
      DeliverFolds(s.links, p.out, links', c);
      StepGood(s.core, input.command, input.now, input.freshId, ViewOf(s.links[c]), c, s.links[c].snapshotted);
    }
  }

  lemma NextOk(s: System, input: Input, s': System)
    requires SystemOk(s) && Next(s, input, s')
    ensures SystemOk(s')
  {
    hide Step, CoreOk, Coherent, Deliver;
    StepOk(s.core, input);
    forall c | c in s'.links ensures Coherent(s'.links[c], s'.core.entries) {
      match input.command
      case Connect(k) => ConnectionChange(s, input, s', c);
      case Disconnect(k) => ConnectionChange(s, input, s', c);
      case SendSnapshot(k) =>
        var sent: Links :| Deliver(s.links, Step(s.core, input.command, input.now, input.freshId).out, sent) &&
          s'.links == if k in sent then sent[k := sent[k].(snapshotted := true)] else sent;
        DeliveredCoherent(s, input, sent, c);
      case _ => DeliveredCoherent(s, input, s'.links, c);
    }
  }

  lemma ConnectionChange(s: System, input: Input, s': System, c: ClientId)
    requires SystemOk(s) && Next(s, input, s') && c in s'.links
    requires input.command.Connect? || input.command.Disconnect?
    ensures Coherent(s'.links[c], s'.core.entries)
  {
    if input.command.Connect? && c == input.command.client {
      assert ViewOf(Link([], false, false)) == map[];
    } else {
      assert c in s.links;
    }
  }

  lemma {:induction false} RunOk(states: seq<System>, inputs: seq<Input>, i: nat)
    requires Run(states, inputs) && i < |states|
    ensures SystemOk(states[i])
  {
    hide Next, CoreOk;
    if i == 0 {
      InitialOk(states[0]);
    } else {
      RunOk(states, inputs, i - 1);
      NextOk(states[i - 1], inputs[i - 1], states[i]);
    }
  }

  lemma InitialOk(s: System)
    requires Initial(s)
    ensures SystemOk(s)
  {
  }

  /** Replica coherence. At every moment of every run, a connected client that lost no message holds,
      for every event it knows, exactly the queue's entry; and once it was sent a snapshot, the live
      entries it holds, sorted by their key, are exactly the queue's ordered snapshot. */
  lemma ReplicaCoherence(states: seq<System>, inputs: seq<Input>, i: nat, c: ClientId)
    requires Run(states, inputs) && i < |states|
    requires c in states[i].links && !states[i].links[c].lossy
    ensures var v := ViewOf(states[i].links[c]);
            var entries := states[i].core.entries;
            && (forall id :: id in v ==> id in entries && v[id] == entries[id])
            && (states[i].links[c].snapshotted ==>
                  LiveEntries(v) == LiveEntries(entries) && OrderedSnapshot(v) == OrderedSnapshot(entries))
  {
    RunOk(states, inputs, i);
    assert Coherent(states[i].links[c], states[i].core.entries);
    hide CoreOk, ViewOf, Arrange;
    var v, entries := ViewOf(states[i].links[c]), states[i].core.entries;
    if states[i].links[c].snapshotted {
      assert LiveEntries(v) == LiveEntries(entries);
    }
  }

  /** The proviso is needed: a client that knows an unseen event and loses the announcement of its
      acknowledgement disagrees with the queue. */
  lemma LostAnnouncementDiverges(core: Core, v: View, client: ClientId, requestId: Option<string>, id: EventId)
    requires CoreOk(core) && Tracks(v, core.entries, None)
    requires id in v && core.entries[id].state == New
    ensures !Tracks(v, AckStep(Pipe(core, []), client, requestId, id).core.entries, None)
  {
    KeyOfEntry(core, id);
  }
}
