/**
 Heartbeat replication as a replicated register. Each receiver's view of one
 provider is a register whose value is a set of offers; `HandleHeartbeat`
 refines `Receive`, and replaying any part of a coherent history, in any order
 and with repetitions, leaves the value of its newest heartbeat.
 */
module Convergence {
  import opened Base
  import opened Nested
  import opened Snapshots
  import opened Heartbeats

  datatype Offer = Offer(protocol: Text, offer: Text, payload: Text)

  ghost function ActiveSet(rows: Rows, source: PeerId): set<Offer> {
    set i | i in rows && rows[i].active && rows[i].triple.provider == source ::
      Offer(rows[i].triple.protocol, rows[i].triple.offer, rows[i].payload)
  }

  ghost function OfferSet(offers: Nested<Text>): set<Offer> {
    set p, o | p in offers && o in offers[p] :: Offer(p, o, offers[p][o])
  }

  lemma ActiveExactlyIsEquality(rows: Rows, source: PeerId, offers: Nested<Text>)
    ensures ActiveExactly(rows, source, offers) <==> ActiveSet(rows, source) == OfferSet(offers)
  {
    if ActiveExactly(rows, source, offers) {
      forall e
        ensures e in ActiveSet(rows, source) <==> e in OfferSet(offers)
      {
        if e in OfferSet(offers) {
          assert Has(offers, e.protocol, e.offer);
          assert HasActive(rows, Triple(source, e.protocol, e.offer));
          var i :| i in rows && rows[i].active && rows[i].triple == Triple(source, e.protocol, e.offer);
          assert Offered(offers, rows[i].triple, rows[i].payload);
        }
        if e in ActiveSet(rows, source) {
          var i :| i in rows && rows[i].active && rows[i].triple.provider == source
                   && e == Offer(rows[i].triple.protocol, rows[i].triple.offer, rows[i].payload);
          assert Offered(offers, rows[i].triple, rows[i].payload);
        }
      }
    }
    if ActiveSet(rows, source) == OfferSet(offers) {
      forall i | i in rows && rows[i].active && rows[i].triple.provider == source
        ensures Offered(offers, rows[i].triple, rows[i].payload)
      {
        assert Offer(rows[i].triple.protocol, rows[i].triple.offer, rows[i].payload) in ActiveSet(rows, source);
      }
      forall p, o | Has(offers, p, o)
        ensures HasActive(rows, Triple(source, p, o))
      {
        assert Offer(p, o, offers[p][o]) in OfferSet(offers);
        var i :| i in rows && rows[i].active && rows[i].triple.provider == source
                 && Offer(p, o, offers[p][o]) == Offer(rows[i].triple.protocol, rows[i].triple.offer, rows[i].payload);
        assert rows[i].triple == Triple(source, p, o);
      }
    }
  }

  // Every scan order, and every choice of rows seen during the scan, leaves the same active
  // offers, keeps the rows that existed, and gives each of them the same `active` flag.
  lemma ScanOrderDoesNotMatter(before: Rows, after: Rows, after': Rows, source: PeerId, offers: Nested<Text>,
                               removed: seq<OfferRemoved>, updated: seq<OfferUpdated>,
                               removed': seq<OfferRemoved>, updated': seq<OfferUpdated>)
    requires OnePerPayload(after) && OnePerPayload(after')
    requires Reconciled(before, after, source, offers, removed, updated)
    requires Reconciled(before, after', source, offers, removed', updated')
    ensures ActiveSet(after, source) == ActiveSet(after', source) == OfferSet(offers)
    ensures forall i | i in before :: i in after && i in after' && after[i] == after'[i]
  {
    ActiveExactlyIsEquality(after, source, offers);
    ActiveExactlyIsEquality(after', source, offers);
    forall i | i in before && before[i].triple.provider == source
      ensures after[i].active == after'[i].active
    {
      ActiveIffOffered(after, source, offers, i);
      ActiveIffOffered(after', source, offers, i);
    }
  }

  lemma ActiveIffOffered(rows: Rows, source: PeerId, offers: Nested<Text>, i: int)
    requires OnePerPayload(rows) && ActiveExactly(rows, source, offers)
    requires i in rows && rows[i].triple.provider == source
    ensures rows[i].active <==> Offered(offers, rows[i].triple, rows[i].payload)
  {
  }

  // --------------------------------------------------------------- the register

  datatype Replica =
    | Unknown
    | Known(profile: Profile, updatedAt: Option<int>, heartbeatAt: Option<int>, active: set<Offer>)

  ghost function ReplicaOf(peers: map<PeerId, PeerRow>, rows: Rows, source: PeerId): Replica {
    if source !in peers then Unknown
    else Known(peers[source].profile, peers[source].updatedAt, peers[source].heartbeatAt, ActiveSet(rows, source))
  }

  ghost predicate Stale(r: Replica, h: Heartbeat) {
    r.Known? && r.heartbeatAt.Some? && h.timestamp <= r.heartbeatAt.value
  }

  ghost function StoredClock(r: Replica): int
    requires r.Known?
  {
    if r.updatedAt.Some? then r.updatedAt.value else TIME_ZERO
  }

  // The error "updated_at is less than stored".
  ghost predicate ClockWentBack(r: Replica, h: Heartbeat) {
    r.Known? && !Stale(r, h) && h.provider.Some? && h.provider.value.updatedAt < StoredClock(r)
  }

  ghost function ValueOf(h: Heartbeat): Replica
    requires h.provider.Some?
  {
    Known(h.provider.value.profile, Some(h.provider.value.updatedAt), Some(h.timestamp),
          OfferSet(h.provider.value.offers))
  }

  ghost function Receive(r: Replica, h: Heartbeat): Replica {
    if h.provider.None? || Stale(r, h) || ClockWentBack(r, h) then r
    else if r.Known? && h.provider.value.updatedAt == StoredClock(r) then r.(heartbeatAt := Some(h.timestamp))
    else ValueOf(h)
  }

  // What the code does to the tables is `Receive` on the sender's register, and nothing on any other.
  lemma HandlingRefinesReceive(peers: map<PeerId, PeerRow>, rows: Rows, peers': map<PeerId, PeerRow>, rows': Rows,
                               source: PeerId, h: Heartbeat, outcome: Outcome, other: PeerId)
    requires Handled(peers, rows, peers', rows', source, h, outcome)
    ensures ReplicaOf(peers', rows', source) == Receive(ReplicaOf(peers, rows, source), h)
    ensures outcome == ProviderClockWentBack <==> ClockWentBack(ReplicaOf(peers, rows, source), h)
    ensures outcome == OutdatedHeartbeat <==> Stale(ReplicaOf(peers, rows, source), h)
    // an update and a bare heartbeat of a known provider are told apart, new providers are not announced
    ensures outcome.Accepted? ==>
      var r := ReplicaOf(peers, rows, source);
      && (outcome.events.providersUpdated ==
            if r.Known? && h.provider.Some? && StoredClock(r) < h.provider.value.updatedAt
            then [(source, h.provider.value.profile)] else [])
      && (outcome.events.providerHeartbeats ==
            if r.Known? && h.provider.Some? && StoredClock(r) == h.provider.value.updatedAt then [source] else [])
    ensures other != source ==> ReplicaOf(peers', rows', other) == ReplicaOf(peers, rows, other)
  {
    var v := Judge(peers, source, h);
    if v.NewerProvider? || v.UnknownProvider? {
      ActiveExactlyIsEquality(rows', source, h.provider.value.offers);
      EvolvingKeepsOthers(rows, rows', source, other);
    }
  }

  lemma EvolvingKeepsOthers(rows: Rows, rows': Rows, source: PeerId, other: PeerId)
    requires Evolved(rows, rows', source)
    ensures other != source ==> ActiveSet(rows', other) == ActiveSet(rows, other)
  {
  }

  // --------------------------------------------------------------- convergence

  // The register after receiving `hs` in that order, from a receiver that knew nothing.
  ghost function Replay(hs: seq<Heartbeat>): Replica {
    if hs == [] then Unknown else Receive(Replay(hs[..|hs| - 1]), hs[|hs| - 1])
  }

  // None of the deliveries met the error.
  ghost predicate NoClockError(hs: seq<Heartbeat>) {
    hs == [] || (NoClockError(hs[..|hs| - 1]) && !ClockWentBack(Replay(hs[..|hs| - 1]), hs[|hs| - 1]))
  }

  ghost predicate Newest(hs: seq<Heartbeat>, h: Heartbeat) {
    h in hs && forall g | g in hs :: g.timestamp <= h.timestamp
  }

  // What a sender published: provider data in every heartbeat.
  ghost predicate Published(sent: set<Heartbeat>) {
    forall h | h in sent :: h.provider.Some?
  }

  // What a heartbeat says of the provider.
  datatype Content = Content(profile: Profile, offers: set<Offer>)

  ghost function ContentOf(h: Heartbeat): Content
    requires h.provider.Some?
  {
    Content(h.provider.value.profile, OfferSet(h.provider.value.offers))
  }

  // The provider clock never runs against the heartbeat clock, and one reading of either clock
  // stands for one profile and one set of offers.
  ghost predicate Coherent(sent: set<Heartbeat>)
    requires Published(sent)
  {
    forall g, h | g in sent && h in sent :: CoherentPair(g, h)
  }

  ghost predicate CoherentPair(g: Heartbeat, h: Heartbeat)
    requires g.provider.Some? && h.provider.Some?
  {
    && (g.timestamp == h.timestamp ==> ContentOf(g) == ContentOf(h))
    && (g.timestamp < h.timestamp ==>
          && g.provider.value.updatedAt <= h.provider.value.updatedAt
          && (g.provider.value.updatedAt == h.provider.value.updatedAt ==> ContentOf(g) == ContentOf(h)))
  }

  // No two heartbeats in one second.
  ghost predicate Spaced(sent: set<Heartbeat>) {
    forall g, h | g in sent && h in sent :: g.timestamp == h.timestamp ==> g == h
  }

  ghost predicate DeliveredFrom(sent: set<Heartbeat>, hs: seq<Heartbeat>) {
    forall h | h in hs :: h in sent
  }

  // The content of the newest heartbeat received, or of any one of them.
  ghost predicate Converged(hs: seq<Heartbeat>) {
    && NoClockError(hs)
    && (hs == [] ==> Replay(hs) == Unknown)
    && (forall h | Newest(hs, h) && h.provider.Some? :: HoldsContentOf(Replay(hs), h))
  }

  ghost predicate HoldsContentOf(r: Replica, h: Heartbeat)
    requires h.provider.Some?
  {
    r.Known? && r.heartbeatAt == Some(h.timestamp) && Content(r.profile, r.active) == ContentOf(h)
  }

  lemma NewestExists(hs: seq<Heartbeat>) returns (h: Heartbeat)
    requires hs != []
    ensures Newest(hs, h)
  {
    h := hs[|hs| - 1];
    if |hs| > 1 {
      var g := NewestExists(hs[..|hs| - 1]);
      assert hs == hs[..|hs| - 1] + [hs[|hs| - 1]];
      if g.timestamp > h.timestamp {
        h := g;
      }
    }
  }

  // One more delivery to a register that holds the value of `g`.
  lemma DeliverNext(sent: set<Heartbeat>, g: Heartbeat, h: Heartbeat)
    requires Published(sent) && Coherent(sent) && g in sent && h in sent
    ensures !ClockWentBack(ValueOf(g), h)
    ensures Receive(ValueOf(g), h) == ValueOf(if g.timestamp < h.timestamp then h else g)
  {
    assert CoherentPair(g, h);
  }

  lemma NewestNext(hs: seq<Heartbeat>, g: Heartbeat)
    requires hs != [] && Newest(hs[..|hs| - 1], g)
    ensures Newest(hs, if g.timestamp < hs[|hs| - 1].timestamp then hs[|hs| - 1] else g)
  {
    var earlier, last := hs[..|hs| - 1], hs[|hs| - 1];
    forall h | h in hs
      ensures h in earlier || h == last
    {
      assert hs == earlier + [last];
    }
  }

  // Loss, reordering and duplication: `hs` is any sequence over the published heartbeats. The
  // register holds the value of one of the newest.
  lemma {:induction false} ReplaysHoldTheNewest(sent: set<Heartbeat>, hs: seq<Heartbeat>) returns (newest: Heartbeat)
    requires Published(sent) && Coherent(sent) && DeliveredFrom(sent, hs) && hs != []
    ensures NoClockError(hs)
    ensures Newest(hs, newest) && newest in sent && Replay(hs) == ValueOf(newest)
  {
    var earlier, last := hs[..|hs| - 1], hs[|hs| - 1];
    assert last in hs;
    if earlier == [] {
      newest := last;
      assert hs == [last] && NoClockError(earlier) && Replay(earlier) == Unknown;
    } else {
      var g := ReplaysHoldTheNewest(sent, earlier);
      DeliverNext(sent, g, last);
      NewestNext(hs, g);
      newest := if g.timestamp < last.timestamp then last else g;
    }
  }

  lemma CoherentHistoriesConverge(sent: set<Heartbeat>, hs: seq<Heartbeat>)
    requires Published(sent) && Coherent(sent) && DeliveredFrom(sent, hs)
    ensures Converged(hs)
  {
    if hs != [] {
      var newest := ReplaysHoldTheNewest(sent, hs);
      forall h | Newest(hs, h)
        ensures HoldsContentOf(Replay(hs), h)
      {
        assert h in sent && CoherentPair(newest, h);
      }
    }
  }

  lemma TwoDeliveries(g: Heartbeat, h: Heartbeat)
    requires g.provider.Some? && h.provider.Some? && Converged([g, h])
    ensures CoherentPair(g, h)
  {
    var hs := [g, h];
    assert hs[..0] == [] && hs[..1] == [g] && [g][..0] == [];
    assert Replay([g]) == ValueOf(g);
    assert Replay(hs) == Receive(ValueOf(g), h);
    if g.timestamp <= h.timestamp {
      assert Newest(hs, h);
      assert !ClockWentBack(Replay(hs[..|hs| - 1]), hs[1]);
      assert HoldsContentOf(Replay(hs), h);
    }
  }

  // Coherence is exactly what convergence needs: if it fails, losing every heartbeat but two
  // already leaves a receiver with an error or with offers a newest one does not carry.
  lemma ConvergesIffCoherent(sent: set<Heartbeat>)
    requires Published(sent)
    ensures Coherent(sent) <==> forall hs | DeliveredFrom(sent, hs) :: Converged(hs)
  {
    if Coherent(sent) {
      forall hs | DeliveredFrom(sent, hs)
        ensures Converged(hs)
      {
        CoherentHistoriesConverge(sent, hs);
      }
    }
    if forall hs | DeliveredFrom(sent, hs) :: Converged(hs) {
      forall g, h | g in sent && h in sent
        ensures CoherentPair(g, h)
      {
        assert DeliveredFrom(sent, [g, h]);
        TwoDeliveries(g, h);
      }
    }
  }

  // Two receivers that got the same heartbeats, in whatever orders, hold the same profile and offers,
  // and the same register if no two heartbeats share a second.
  lemma ReceiversAgree(sent: set<Heartbeat>, hs: seq<Heartbeat>, hs': seq<Heartbeat>)
    requires Published(sent) && Coherent(sent) && DeliveredFrom(sent, hs) && DeliveredFrom(sent, hs')
    requires forall h :: h in hs <==> h in hs'
    ensures Replay(hs).Known? <==> Replay(hs').Known?
    ensures Replay(hs).Known? ==>
      && Replay(hs).active == Replay(hs').active && Replay(hs).profile == Replay(hs').profile
      && Replay(hs).heartbeatAt == Replay(hs').heartbeatAt
    ensures Spaced(sent) ==> Replay(hs) == Replay(hs')
  {
    assert |hs| > 0 ==> hs[0] in hs;
    assert |hs'| > 0 ==> hs'[0] in hs';
    if hs != [] {
      var g := ReplaysHoldTheNewest(sent, hs);
      var h := ReplaysHoldTheNewest(sent, hs');
      assert CoherentPair(g, h);
    }
  }

  // ------------------------------------------------------- runs of a receiving node

  datatype Tables = Tables(peers: map<PeerId, PeerRow>, rows: Rows)

  // A node's tables change by heartbeats and by its own provider modules.
  datatype Input = Gossip(source: PeerId, heartbeat: Heartbeat) | LocalUpsert(own: PeerId)

  ghost predicate NodeStep(a: Tables, input: Input, b: Tables) {
    match input
    case Gossip(source, heartbeat) =>
      exists outcome :: Handled(a.peers, a.rows, b.peers, b.rows, source, heartbeat, outcome)
    case LocalUpsert(own) =>
      && b.peers == (if own in a.peers then a.peers else a.peers[own := BARE_PEER])
      && Evolved(a.rows, b.rows, own)
  }

  ghost predicate NodeRun(states: seq<Tables>, inputs: seq<Input>) {
    && |states| == |inputs| + 1
    && forall k | 0 <= k < |inputs| :: NodeStep(states[k], inputs[k], states[k + 1])
  }

  ghost function ReceivedFrom(inputs: seq<Input>, source: PeerId): seq<Heartbeat> {
    if inputs == [] then []
    else
      var last := inputs[|inputs| - 1];
      ReceivedFrom(inputs[..|inputs| - 1], source)
        + (if last.Gossip? && last.source == source then [last.heartbeat] else [])
  }

  lemma StepReplays(a: Tables, input: Input, b: Tables, source: PeerId)
    requires NodeStep(a, input, b)
    requires input.LocalUpsert? ==> input.own != source
    ensures ReplicaOf(b.peers, b.rows, source) ==
      if input.Gossip? && input.source == source then Receive(ReplicaOf(a.peers, a.rows, source), input.heartbeat)
      else ReplicaOf(a.peers, a.rows, source)
  {
    match input
    case LocalUpsert(own) => EvolvingKeepsOthers(a.rows, b.rows, own, source);
    case Gossip(from, heartbeat) =>
      var outcome :| Handled(a.peers, a.rows, b.peers, b.rows, from, heartbeat, outcome);
      HandlingRefinesReceive(a.peers, a.rows, b.peers, b.rows, from, heartbeat, outcome, source);
  }

  lemma ReplayNext(inputs: seq<Input>, source: PeerId)
    requires inputs != []
    ensures var last, before := inputs[|inputs| - 1], Replay(ReceivedFrom(inputs[..|inputs| - 1], source));
      Replay(ReceivedFrom(inputs, source)) ==
        if last.Gossip? && last.source == source then Receive(before, last.heartbeat) else before
  {
    var last, before := inputs[|inputs| - 1], ReceivedFrom(inputs[..|inputs| - 1], source);
    if last.Gossip? && last.source == source {
      assert (before + [last.heartbeat])[..|before|] == before;
    } else {
      assert ReceivedFrom(inputs, source) == before;
    }
  }

  lemma {:induction false} RunReplays(states: seq<Tables>, inputs: seq<Input>, source: PeerId)
    requires NodeRun(states, inputs)
    requires source !in states[0].peers
    requires forall k | 0 <= k < |inputs| && inputs[k].LocalUpsert? :: inputs[k].own != source
    ensures ReplicaOf(states[|inputs|].peers, states[|inputs|].rows, source) == Replay(ReceivedFrom(inputs, source))
  {
    if inputs != [] {
      var n := |inputs| - 1;
      RunReplays(states[..n + 1], inputs[..n], source);
      StepReplays(states[n], inputs[n], states[n + 1], source);
      ReplayNext(inputs, source);
    }
  }

  lemma StepsLeaveOthersAlone(a: Tables, input: Input, b: Tables, source: PeerId)
    requires NodeStep(a, input, b)
    requires if input.Gossip? then input.source != source else input.own != source
    ensures ActiveSet(b.rows, source) == ActiveSet(a.rows, source)
  {
    var author := if input.Gossip? then input.source else input.own;
    assert Evolved(a.rows, b.rows, author);
    EvolvingKeepsOthers(a.rows, b.rows, author, source);
  }

  // Nothing is active for a provider that was never heard of.
  lemma {:induction false} SilenceLeavesNothing(states: seq<Tables>, inputs: seq<Input>, source: PeerId)
    requires NodeRun(states, inputs)
    requires source !in states[0].peers && Referenced(states[0].peers, states[0].rows)
    requires forall k | 0 <= k < |inputs| && inputs[k].LocalUpsert? :: inputs[k].own != source
    requires ReceivedFrom(inputs, source) == []
    ensures ActiveSet(states[|inputs|].rows, source) == {}
  {
    if inputs != [] {
      var n := |inputs| - 1;
      SilenceLeavesNothing(states[..n + 1], inputs[..n], source);
      StepsLeaveOthersAlone(states[n], inputs[n], states[n + 1], source);
    }
  }

  // Heartbeats that all carry offers never leave a register without any, whatever their clocks say.
  lemma {:induction false} ReplaysKeepOffers(hs: seq<Heartbeat>)
    requires forall h | h in hs :: h.provider.Some? && OfferSet(h.provider.value.offers) != {}
    ensures hs != [] ==> Replay(hs).Known? && Replay(hs).active != {}
  {
    if hs != [] {
      assert hs[|hs| - 1] in hs;
      ReplaysKeepOffers(hs[..|hs| - 1]);
    }
  }

  // Over any run of a node, interleaved with other providers' heartbeats and its own offers.
  lemma {:induction false} NodesConverge(states: seq<Tables>, inputs: seq<Input>, source: PeerId,
                                         sent: set<Heartbeat>, newest: Heartbeat)
    requires NodeRun(states, inputs)
    requires source !in states[0].peers
    requires forall k | 0 <= k < |inputs| && inputs[k].LocalUpsert? :: inputs[k].own != source
    requires Published(sent) && Coherent(sent)
    requires DeliveredFrom(sent, ReceivedFrom(inputs, source))
    requires Newest(ReceivedFrom(inputs, source), newest)
    ensures ActiveSet(states[|inputs|].rows, source) == OfferSet(newest.provider.value.offers)
    ensures source in states[|inputs|].peers
    ensures states[|inputs|].peers[source].profile == newest.provider.value.profile
    ensures NoClockError(ReceivedFrom(inputs, source))
  {
    RunReplays(states, inputs, source);
    CoherentHistoriesConverge(sent, ReceivedFrom(inputs, source));
  }
}
