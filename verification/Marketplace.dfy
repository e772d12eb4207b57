/**
 The provider as a whole: its registry and snapshot rows under modules, gossip
 and restarts, and the jobs created from what the registry holds at that moment.
 */
module Marketplace {
  import opened Base
  import opened Snapshots
  import opened Registry
  import opened EndToEnd
  import J = Jobs
  import L = Ledger
  import P = Protocol

  datatype Market = Market(node: Node, world: P.World)

  datatype Event = NodeMoves(event: NodeEvent) | JobMoves(step: P.Step)

  // What a create request finds: the registry's offer, and the payload of the row it names.
  ghost function Found(node: Node, p: Text, o: Text): Option<J.Found> {
    if !Synced(node.registry) then None
    else
      var found := FindOffer(node.registry, p, o);
      if found.None? || found.value.provided.snapshotRowid !in node.rows then None
      else Some(J.Found(found.value.provided.payload, node.rows[found.value.provided.snapshotRowid].payload))
  }

  ghost predicate IsFound(node: Node, p: Text, found: Option<J.Found>) {
    exists o :: found == Found(node, p, o)
  }

  ghost predicate MarketNext(x: P.Parties, a: Market, event: Event, b: Market) {
    match event
    case NodeMoves(e) => b.world == a.world && NodeNext(a.node, e, x.provider, b.node)
    case JobMoves(step) =>
      && b == a.(world := P.Next(x, a.world, step))
      && (step.CreateJob? ==> IsFound(a.node, step.protocolId, step.found))
  }

  ghost predicate MarketRun(x: P.Parties, markets: seq<Market>, events: seq<Event>) {
    && |markets| == |events| + 1
    && markets[0] == Market(Node(FRESH, markets[0].node.rows), P.START)
    && forall k | 0 <= k < |events| :: MarketNext(x, markets[k], events[k], markets[k + 1])
  }

  function JobSteps(events: seq<Event>): seq<P.Step> {
    if events == [] then []
    else
      var last := events[|events| - 1];
      JobSteps(events[..|events| - 1]) + (if last.JobMoves? then [last.step] else [])
  }

  // One payload per own (protocol, offer) pair in every provide.
  predicate FixedPayloads(events: seq<Event>, pay: (Text, Text) -> Text) {
    forall e | e in events && e.NodeMoves? && e.event.Offers? :: e.event.payload == pay(e.event.p, e.event.o)
  }

  // ----------------------------------------------------------------- composition

  ghost predicate NodeOk(node: Node, own: PeerId, pay: (Text, Text) -> Text) {
    Synced(node.registry) && Anchored(node.registry, node.rows, own) && PayloadsFixed(node.rows, own, pay)
  }

  lemma FoundNamesItsPayload(node: Node, own: PeerId, pay: (Text, Text) -> Text, p: Text, found: Option<J.Found>)
    requires NodeOk(node, own, pay) && IsFound(node, p, found) && found.Some?
    ensures found.value.rowPayload == found.value.payload
  {
    var o :| found == Found(node, p, o);
    FoundOffersNameTheirPayload(node.registry, node.rows, own, p, o);
  }

  // The jobs of such a history are a run of the protocol, and every offer found in it is anchored.
  lemma {:induction false} MarketsAreAnchored(x: P.Parties, markets: seq<Market>, events: seq<Event>,
                                              pay: (Text, Text) -> Text)
    requires MarketRun(x, markets, events) && FixedPayloads(events, pay)
    requires PayloadsFixed(markets[0].node.rows, x.provider, pay)
    ensures NodeOk(markets[|events|].node, x.provider, pay)
    ensures markets[|events|].world == P.After(x, JobSteps(events))
    ensures L.OffersAnchored(JobSteps(events))
  {
    if events != [] {
      var n := |events| - 1;
      assert forall e | e in events[..n] :: e in events;
      MarketsAreAnchored(x, markets[..n + 1], events[..n], pay);
      assert events[n] in events;
      MarketStep(x, markets[n], events[n], markets[n + 1], pay, JobSteps(events[..n]));
      assert JobSteps(events) == JobSteps(events[..n]) + (if events[n].JobMoves? then [events[n].step] else []);
    }
  }

  lemma MarketStep(x: P.Parties, a: Market, event: Event, b: Market, pay: (Text, Text) -> Text, steps: seq<P.Step>)
    requires MarketNext(x, a, event, b) && NodeOk(a.node, x.provider, pay)
    requires event.NodeMoves? && event.event.Offers? ==> event.event.payload == pay(event.event.p, event.event.o)
    requires a.world == P.After(x, steps) && L.OffersAnchored(steps)
    ensures NodeOk(b.node, x.provider, pay)
    ensures var steps' := steps + (if event.JobMoves? then [event.step] else []);
      b.world == P.After(x, steps') && L.OffersAnchored(steps')
  {
    match event
    case NodeMoves(e) =>
      NodeStepKeepsAnchors(a.node, e, b.node, x.provider, pay);
      assert steps + [] == steps;
    case JobMoves(step) =>
      assert (steps + [step])[..|steps|] == steps;
      if step.CreateJob? && step.found.Some? {
        FoundNamesItsPayload(a.node, x.provider, pay, step.protocolId, step.found);
      }
  }

  // Confirmations between a consumer that copies and a provider that keeps one payload per offer
  // succeed whenever the provider row is neither confirmed nor failed, over all histories of the
  // provider's modules, of gossip, of restarts and of jobs.
  lemma {:induction false} MarketConfirmsSucceed(x: P.Parties, markets: seq<Market>, events: seq<Event>,
                                                 pay: (Text, Text) -> Text, i: nat, now: int)
    requires MarketRun(x, markets, events) && FixedPayloads(events, pay)
    requires PayloadsFixed(markets[0].node.rows, x.provider, pay)
    requires L.CopyingRun(x, JobSteps(events)) && L.IdealSignature(x)
    requires i < |markets[|events|].world.tasks| && markets[|events|].world.tasks[i].answer.None?
    ensures var w := markets[|events|].world; var k := w.tasks[i].key;
      && k in w.p
      && P.IsAnswered(x, w, i, now,
           if w.p[k].confirmedAt.Some? then J.AlreadyConfirmed
           else if w.p[k].reason.Some? then J.AlreadyFailed
           else J.ConfirmOk)
  {
    MarketsAreAnchored(x, markets, events, pay);
    L.HonestConfirmsSucceed(x, JobSteps(events), i, now);
  }
}
