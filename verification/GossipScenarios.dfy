/**
 Concrete histories of providers and receivers: that what the other modules say
 can go wrong does go wrong.
 */
module GossipScenarios {
  import opened Base
  import opened Nested
  import opened Snapshots
  import opened Heartbeats
  import opened Convergence
  import opened Registry
  import opened EndToEnd
  import LiveView

  const NOBODY := Profile(None, None, None)

  // ------------------------------------------------------- one more offer at a time

  // The state after one more offer on connection 0.
  function WithOffer(s: State, o: Text, now: int): State
    requires 0 in s.connections
  {
    Provided(s, 0, [], o, ProvidedOffer(1, []), now)
  }

  lemma OneMoreOffer(s: State, o: Text, now: int)
    requires 0 in s.connections && !Has(s.offersModuleMap, [], o)
    ensures var s' := WithOffer(s, o, now);
      && 0 in s'.connections && s'.lastUpdatedAt == now && s'.offersModuleMap != map[] && IsNext(s, s', now)
      && forall r | r != o :: Has(s'.offersModuleMap, [], r) == Has(s.offersModuleMap, [], r)
  {
    var s' := WithOffer(s, o, now);
    assert s' == Next(s, ProvideStep(0, [], o, ProvidedOffer(1, [])), now);
    assert Has(s'.offersModuleMap, [], o);
  }

  lemma OneMoreOfferShows(s: State, o: Text, now: int)
    requires Synced(s) && 0 in s.connections && !Has(s.offersModuleMap, [], o)
    ensures Synced(WithOffer(s, o, now))
    ensures OfferSet(HeartbeatOffers(WithOffer(s, o, now))) != OfferSet(HeartbeatOffers(s))
  {
    ProvidingKeepsSync(s, 0, [], o, ProvidedOffer(1, []), now);
    ProvidedIsFound(s, WithOffer(s, o, now), o, now);
    NewOfferShows(s, WithOffer(s, o, now), o);
  }

  lemma NewOfferShows(s: State, s': State, o: Text)
    requires Synced(s) && Synced(s') && FindOffer(s, [], o).None? && Provides(s', [], o, [])
    ensures OfferSet(HeartbeatOffers(s')) != OfferSet(HeartbeatOffers(s))
  {
    OfferSetIsProvided(s, [], o, []);
    OfferSetIsProvided(s', [], o, []);
  }

  lemma ProvidedIsFound(s: State, s': State, o: Text, now: int)
    requires 0 in s.connections && !Has(s.offersModuleMap, [], o)
    requires Synced(s') && s' == WithOffer(s, o, now)
    ensures FindOffer(s', [], o).Some? && FindOffer(s', [], o).value.provided == ProvidedOffer(1, [])
  {
    var m := ModuleFor(s, 0);
    assert Get(s'.modules[m], [], o) == Some(ProvidedOffer(1, []));
    OfferedByIff(s', m, [], o);
  }

  // ---------------------------------------------------------------- shared seconds

  // Two offers, provided at t and t', and a heartbeat after each, at h and h'.
  ghost function TwoChanges(start: State, first: State, second: State, t: int, h: int, t': int, h': int): seq<Moment> {
    [Moment(NOBODY, start, 0, false), Moment(NOBODY, first, t, false), Moment(NOBODY, first, h, true),
     Moment(NOBODY, second, t', false), Moment(NOBODY, second, h', true)]
  }

  lemma ChangesAreARun(start: State, first: State, second: State, t: int, h: int, t': int, h': int)
    requires 0 <= t <= h <= t' <= h'
    requires Synced(start) && start.lastUpdatedAt == 0 && IsNext(start, first, t) && IsNext(first, second, t')
    requires first.offersModuleMap != map[] && second.offersModuleMap != map[]
    ensures SenderRun(TwoChanges(start, first, second, t, h, t', h'))
  {
  }

  lemma TwoOffers(t: int, t': int) returns (start: State, first: State, second: State)
    ensures Synced(start) && IsNext(start, first, t) && IsNext(first, second, t')
    ensures start.lastUpdatedAt == 0 && first.lastUpdatedAt == t && second.lastUpdatedAt == t'
    ensures first.offersModuleMap != map[] && second.offersModuleMap != map[]
    ensures OfferSet(HeartbeatOffers(second)) != OfferSet(HeartbeatOffers(first))
  {
    start := Open(FRESH, 0);
    StepKeepsSync(FRESH, OpenStep(0), 0);
    OneMoreOffer(start, [1], t);
    OneMoreOfferShows(start, [1], t);
    first := WithOffer(start, [1], t);
    OneMoreOffer(first, [2], t');
    OneMoreOfferShows(first, [2], t');
    second := WithOffer(first, [2], t');
  }

  // What the two heartbeats of such a run say.
  ghost predicate TwoBeats(run: seq<Moment>) {
    && |run| == 5 && !run[0].sent && !run[1].sent && run[2].sent && !run[3].sent && run[4].sent
    && run[1].registry == run[2].registry && run[3].registry == run[4].registry
    && (forall k | 0 <= k < 5 :: run[k].profile == NOBODY)
    && OfferSet(HeartbeatOffers(run[4].registry)) != OfferSet(HeartbeatOffers(run[2].registry))
  }

  lemma ChangesAreTwoBeats(start: State, first: State, second: State, t: int, h: int, t': int, h': int)
    requires start.lastUpdatedAt == 0 && first.lastUpdatedAt == t && second.lastUpdatedAt == t'
    requires OfferSet(HeartbeatOffers(second)) != OfferSet(HeartbeatOffers(first))
    ensures var run := TwoChanges(start, first, second, t, h, t', h');
      && TwoBeats(run) && run[0].registry.lastUpdatedAt == 0
      && run[2].registry.lastUpdatedAt == t && run[1].at == t && run[2].at == h && run[3].at == t'
      && run[4].registry.lastUpdatedAt == t' && run[4].at == h'
  {
  }

  lemma ChangesRun(t: int, h: int, t': int, h': int) returns (run: seq<Moment>)
    requires 0 <= t <= h <= t' <= h'
    ensures SenderRun(run) && TwoBeats(run)
    ensures run[0].registry.lastUpdatedAt == 0
    ensures run[2].registry.lastUpdatedAt == t && run[1].at == t && run[2].at == h && run[3].at == t'
    ensures run[4].registry.lastUpdatedAt == t' && run[4].at == h'
  {
    var start, first, second := TwoOffers(t, t');
    run := TwoChanges(start, first, second, t, h, t', h');
    ChangesAreARun(start, first, second, t, h, t', h');
    ChangesAreTwoBeats(start, first, second, t, h, t', h');
  }

  lemma ChangesInOneSecond(run: seq<Moment>)
    requires TwoBeats(run) && Seconds(run[2].at) < Seconds(run[4].at)
    requires Seconds(run[2].registry.lastUpdatedAt) == Seconds(run[4].registry.lastUpdatedAt)
    ensures HeartbeatsSpaced(Stamps(run)) && !SecondsSeparate(Stamps(run))
  {
    assert !SeparatePair(Stamps(run)[2], Stamps(run)[4]);
  }

  lemma HeartbeatsInOneSecond(run: seq<Moment>)
    requires TwoBeats(run) && Seconds(run[2].at) == Seconds(run[4].at)
    requires Seconds(run[0].registry.lastUpdatedAt) < Seconds(run[1].at) < Seconds(run[3].at)
    ensures ChangesSpaced(run) && !SecondsSeparate(Stamps(run))
  {
    assert !SeparatePair(Stamps(run)[2], Stamps(run)[4]);
  }

  // Two changes within one second, a heartbeat between them, the next one in the following second.
  lemma ChangesCanShareASecond() returns (run: seq<Moment>)
    ensures SenderRun(run) && HeartbeatsSpaced(Stamps(run)) && !SecondsSeparate(Stamps(run))
  {
    run := ChangesRun(1, 1, 2, NANOSECONDS);
    ChangesInOneSecond(run);
  }

  // Changes in seconds 5 and 10, and both heartbeats in second 10: one tick came late.
  lemma HeartbeatsCanShareASecond() returns (run: seq<Moment>)
    ensures SenderRun(run) && ChangesSpaced(run) && !SecondsSeparate(Stamps(run))
  {
    run := ChangesRun(5_000_000_000, 10_100_000_000, 10_200_000_000, 10_300_000_000);
    HeartbeatsInOneSecond(run);
  }

  // --------------------------------------------------------------- a withdrawn offer

  lemma NothingLeft(mm: Nested<nat>, m: nat)
    requires forall p, o | Has(mm, p, o) :: At(mm, p, o) == m
    ensures Without(mm, m) == map[]
  {
    WithoutLookups(mm, m);
    SameLookups(Without(mm, m), map[]);
  }

  function TheOffer(): State {
    WithOffer(Open(FRESH, 0), [1], 1)
  }

  lemma TheOfferIsPublished()
    ensures HeartbeatOffers(TheOffer()) == map[[] := map[[1] := []]]
    ensures TheOffer().offersModuleMap != map[] && TheOffer().lastUpdatedAt == 1
  {
    var s := TheOffer();
    assert s.offersModuleMap == map[[] := map[[1] := 0]];
    assert Get(s.modules[0], [], [1]) == Some(ProvidedOffer(1, []));
    assert HeartbeatOffers(s)[[]] == map[[1] := []];
  }

  lemma TheOfferIsWithdrawn()
    ensures IsNext(TheOffer(), Closed(TheOffer(), 0, 2), 2)
    ensures Closed(TheOffer(), 0, 2).offersModuleMap == map[]
  {
    assert Closed(TheOffer(), 0, 2) == Next(TheOffer(), CloseStep(0), 2);
    NothingLeft(TheOffer().offersModuleMap, 0);
  }

  ghost function Withdrawal(start: State, first: State, last: State): seq<Moment> {
    [Moment(NOBODY, start, 0, false), Moment(NOBODY, first, 1, true), Moment(NOBODY, last, 2, false)]
  }

  lemma WithdrawalIsARun(start: State, first: State, last: State)
    requires Synced(start) && start.lastUpdatedAt == 0 && IsNext(start, first, 1) && IsNext(first, last, 2)
    requires first.offersModuleMap != map[]
    ensures SenderRun(Withdrawal(start, first, last))
  {
  }

  lemma WithdrawalRun() returns (run: seq<Moment>)
    ensures SenderRun(run) && |run| == 3 && run[1].sent && run[2].registry.offersModuleMap == map[]
    ensures StampOf(run[1]) == Stamp(NOBODY, map[[] := map[[1] := []]], 0, 0, true)
  {
    StepKeepsSync(FRESH, OpenStep(0), 0);
    OneMoreOffer(Open(FRESH, 0), [1], 1);
    TheOfferIsPublished();
    TheOfferIsWithdrawn();
    WithdrawalIsARun(Open(FRESH, 0), TheOffer(), Closed(TheOffer(), 0, 2));
    run := Withdrawal(Open(FRESH, 0), TheOffer(), Closed(TheOffer(), 0, 2));
  }

  // One delivery of the only heartbeat, to a node that knows nothing.
  lemma OneDelivery(source: PeerId)
    returns (heartbeat: Heartbeat, states: seq<Tables>, inputs: seq<Input>)
    ensures heartbeat == Beat(Stamp(NOBODY, map[[] := map[[1] := []]], 0, 0, true))
    ensures NodeRun(states, inputs) && states[0] == Tables(map[], map[])
    ensures ReceivedFrom(inputs, source) == [heartbeat] && ActiveSet(states[|inputs|].rows, source) != {}
  {
    var peers, rows, outcome;
    heartbeat, peers, rows, outcome := FirstOffer(Triple(source, [], [1]), [], NOBODY, 0, 0);
    states, inputs := [Tables(map[], map[]), Tables(peers, rows)], [Gossip(source, heartbeat)];
    assert NodeStep(states[0], inputs[0], states[1]);
    assert inputs[..0] == [];
    assert rows[1].active && rows[1].triple.provider == source;
    assert Offer([], [1], []) in ActiveSet(rows, source);
  }

  // A provider that offers nothing any more, and a receiver that still holds its offer.
  lemma WithdrawnOfferStays(source: PeerId)
    returns (run: seq<Moment>, states: seq<Tables>, inputs: seq<Input>)
    ensures SenderRun(run) && run[|run| - 1].registry.offersModuleMap == map[]
    ensures NodeRun(states, inputs) && states[0] == Tables(map[], map[])
    ensures DeliveredFrom(Sent(Stamps(run)), ReceivedFrom(inputs, source))
    ensures ReceivedFrom(inputs, source) != [] && ActiveSet(states[|inputs|].rows, source) != {}
  {
    var heartbeat;
    run := WithdrawalRun();
    heartbeat, states, inputs := OneDelivery(source);
    assert Stamps(run)[1] == StampOf(run[1]);
    assert heartbeat in Sent(Stamps(run));
  }

  // ------------------------------------------------------------- the node's own rows

  // A module provides a pair, disconnects, and the pair is provided again with another payload:
  // the live offer now names the row of the first one.
  lemma SecondPayloadIsNotAnchored(own: PeerId, p: Text, o: Text, first: Text, second: Text)
    returns (nodes: seq<Node>, events: seq<NodeEvent>)
    requires first != second
    ensures NodeHistory(nodes, events, own) && nodes[0].rows == map[]
    ensures !Anchored(nodes[|events|].registry, nodes[|events|].rows, own)
  {
    var t := Triple(own, p, o);
    var rows: Rows := map[1 := Row(t, first, true)];
    var s1 := Open(FRESH, 0);
    var s2 := Provided(s1, 0, p, o, ProvidedOffer(1, first), 0);
    var s3 := Closed(s2, 0, 0);
    var s4 := Open(s3, 1);
    var s5 := Provided(s4, 1, p, o, ProvidedOffer(1, second), 0);
    events := [Connects(0), Offers(0, p, o, first), Disconnects(0), Connects(1), Offers(1, p, o, second)];
    nodes := [Node(FRESH, map[]), Node(s1, map[]), Node(s2, rows), Node(s3, rows), Node(s4, rows), Node(s5, rows)];
    WithoutLookups(s2.offersModuleMap, 0);
    assert Get(s3.offersModuleMap, p, o) == None;
    assert rows[1].active && rows[1].triple == t;
    assert NodeNext(nodes[1], events[1], own, nodes[2]);
    assert NodeNext(nodes[4], events[4], own, nodes[5]);
    assert 1 in s5.modules && Has(s5.modules[1], p, o) && At(s5.modules[1], p, o) == ProvidedOffer(1, second);
  }

  // A first own offer that a subscriber to everything is not told of.
  lemma OwnOffersGoUnseen(t: Triple, payload: Text) returns (after: Rows, f: LiveView.OfferFilter)
    ensures OneActive(after) && Upserted(map[], after, t, payload, 1)
    ensures LiveView.QueryView(after, f) != LiveView.QueryView(map[], f)
  {
    after, f := map[1 := Row(t, payload, true)], LiveView.OfferFilter(None, None);
    ProvidingIsSilent(map[], after, t, payload, 1, f);
  }
}
