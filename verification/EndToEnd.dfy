/**
 From a provider's registry, through whatever the network delivers, to the
 active offers of a receiver. Also the node's own side: its registry keeps
 pointing at the rows of its own snapshot table.
 */
module EndToEnd {
  import opened Base
  import opened Nested
  import opened Snapshots
  import opened Heartbeats
  import opened Convergence
  import opened Registry
  import LiveView

  const NANOSECONDS := 1_000_000_000

  // Clocks travel as whole seconds.
  function Seconds(at: int): int {
    at / NANOSECONDS
  }

  // The provider at one moment of its run, and whether it published a heartbeat then.
  datatype Moment = Moment(profile: Profile, registry: State, at: int, sent: bool)

  ghost predicate IsNext(a: State, b: State, now: int) {
    exists step :: b == Next(a, step, now)
  }

  // The registry moves by provides and disconnects stamped with the time they happen. When the
  // node is restarted it is empty, and the configured profile may be another one.
  ghost predicate Moves(a: Moment, b: Moment) {
    && a.at <= b.at
    && (|| b.registry == Restarted(b.at)
        || (b.profile == a.profile && (b.registry == a.registry || IsNext(a.registry, b.registry, b.at))))
  }

  // Nothing is published while there is nothing to offer.
  ghost predicate SenderRun(run: seq<Moment>) {
    && run != []
    && (forall k | 0 <= k < |run| && run[k].sent :: run[k].registry.offersModuleMap != map[])
    && Synced(run[0].registry) && run[0].registry.lastUpdatedAt <= run[0].at
    && (forall k | 0 < k < |run| :: Moves(run[k - 1], run[k]))
  }

  // Local clocks never run ahead of the time, at any moment of a run.
  ghost predicate TimeLine(run: seq<Moment>) {
    && (forall k | 0 <= k < |run| :: run[k].registry.lastUpdatedAt <= run[k].at)
    && (forall k | 0 < k < |run| :: Moves(run[k - 1], run[k]))
  }

  lemma MovesKeepSync(a: Moment, b: Moment)
    requires Moves(a, b) && Synced(a.registry)
    ensures Synced(b.registry)
  {
    if b.registry != a.registry && b.registry != Restarted(b.at) {
      var step :| b.registry == Next(a.registry, step, b.at);
      StepKeepsSync(a.registry, step, b.at);
    }
  }

  // The local clock stays behind the time, and the transmitted one never goes back.
  lemma ClockAdvances(a: Moment, b: Moment)
    requires Moves(a, b) && a.registry.lastUpdatedAt <= a.at
    ensures b.registry.lastUpdatedAt <= b.at
    ensures Seconds(a.registry.lastUpdatedAt) <= Seconds(b.registry.lastUpdatedAt) && Seconds(a.at) <= Seconds(b.at)
  {
  }

  // What the provider says of itself changes from one moment to the next.
  predicate Changes(a: Moment, b: Moment) {
    a.registry.offersModuleMap != b.registry.offersModuleMap || a.profile != b.profile
  }

  // Every change is stamped with its time, whether an offer comes or goes, and but for restarts,
  // which leave nothing to offer, nothing else moves the clock.
  lemma ChangesAreStamped(a: Moment, b: Moment)
    requires Moves(a, b) && Synced(a.registry)
    ensures Changes(a, b) ==> b.registry.lastUpdatedAt == b.at
    ensures !Changes(a, b) && b.registry.offersModuleMap != map[] ==>
      b.registry.lastUpdatedAt == a.registry.lastUpdatedAt
  {
    if b.registry != a.registry && b.registry != Restarted(b.at) {
      var step :| b.registry == Next(a.registry, step, b.at);
      StepIsStamped(a.registry, step, b.at);
    }
  }

  lemma StepIsStamped(s: State, step: Step, now: int)
    requires Synced(s)
    ensures var s' := Next(s, step, now);
      if s'.offersModuleMap != s.offersModuleMap then s'.lastUpdatedAt == now else s'.lastUpdatedAt == s.lastUpdatedAt
  {
    match step
    case OpenStep(_) =>
    case ProvideStep(c, p, o, offer) =>
      if c in s.connections && !Has(s.offersModuleMap, p, o) {
        assert Has(Next(s, step, now).offersModuleMap, p, o);
      }
    case CloseStep(c) =>
      if c in s.connections && s.connections[c].Some? {
        ModulesAreListed(s, s.connections[c].value);
      }
  }

  // A module has an offer, so closing its connection changes the map.
  lemma ModulesAreListed(s: State, m: nat)
    requires Synced(s) && m in s.modules
    ensures Without(s.offersModuleMap, m) != s.offersModuleMap
  {
    var p := AnyKey(s.modules[m]);
    var o := AnyKey(s.modules[m][p]);
    assert Has(s.modules[m], p, o);
    WithoutLookups(s.offersModuleMap, m);
    assert Get(s.offersModuleMap, p, o) == Some(m);
    assert Get(Without(s.offersModuleMap, m), p, o) == None;
  }

  lemma {:induction false} RunsStaySynced(run: seq<Moment>, k: nat)
    requires SenderRun(run) && k < |run|
    ensures Synced(run[k].registry) && run[k].registry.lastUpdatedAt <= run[k].at
  {
    if k > 0 {
      RunsStaySynced(run, k - 1);
      MovesKeepSync(run[k - 1], run[k]);
      ClockAdvances(run[k - 1], run[k]);
    }
  }

  // What a heartbeat published at a moment would say.
  datatype Stamp = Stamp(profile: Profile, offers: Nested<Text>, updatedAt: int, at: int, sent: bool)

  ghost function StampOf(m: Moment): Stamp {
    Stamp(m.profile, HeartbeatOffers(m.registry), Seconds(m.registry.lastUpdatedAt), Seconds(m.at), m.sent)
  }

  ghost function Stamps(run: seq<Moment>): seq<Stamp> {
    seq(|run|, k requires 0 <= k < |run| => StampOf(run[k]))
  }

  function Beat(s: Stamp): Heartbeat {
    Heartbeat(Some(Details(s.profile, s.offers, s.updatedAt)), s.at)
  }

  ghost function Sent(stamps: seq<Stamp>): set<Heartbeat> {
    set k | 0 <= k < |stamps| && stamps[k].sent :: Beat(stamps[k])
  }

  // Two heartbeats never fall into the same second.
  ghost predicate HeartbeatsSpaced(stamps: seq<Stamp>) {
    forall i, j | 0 <= i < j < |stamps| && stamps[i].sent && stamps[j].sent :: stamps[i].at < stamps[j].at
  }

  // The moments at which the provider changes fall into distinct seconds, the first one into a
  // later second than the change the run starts from.
  ghost predicate ChangesSpaced(run: seq<Moment>) {
    && (forall k | 0 < k < |run| && Changes(run[k - 1], run[k]) ::
          run != [] && Seconds(run[0].registry.lastUpdatedAt) < Seconds(run[k].at))
    && (forall j, k | 0 < j < k < |run| && Changes(run[j - 1], run[j]) && Changes(run[k - 1], run[k]) ::
          Seconds(run[j].at) < Seconds(run[k].at))
  }

  ghost predicate ClockMonotone(stamps: seq<Stamp>) {
    forall k | 0 < k < |stamps| :: stamps[k - 1].updatedAt <= stamps[k].updatedAt && stamps[k - 1].at <= stamps[k].at
  }

  lemma RunsHaveMonotoneClocks(run: seq<Moment>)
    requires SenderRun(run)
    ensures ClockMonotone(Stamps(run))
  {
    assert TimeLine(run) by {
      forall k | 0 <= k < |run|
        ensures run[k].registry.lastUpdatedAt <= run[k].at
      {
        RunsStaySynced(run, k);
      }
    }
    TimeLinesHaveMonotoneClocks(run);
  }

  lemma TimeLinesHaveMonotoneClocks(run: seq<Moment>)
    requires TimeLine(run)
    ensures ClockMonotone(Stamps(run))
  {
    forall k | 0 < k < |run|
      ensures Stamps(run)[k - 1].updatedAt <= Stamps(run)[k].updatedAt && Stamps(run)[k - 1].at <= Stamps(run)[k].at
    {
      ClockAdvances(run[k - 1], run[k]);
    }
  }

  // Published states that share a second of either clock, that of the last change or that of the
  // heartbeat, say the same.
  ghost predicate SecondsSeparate(stamps: seq<Stamp>) {
    forall i, j | 0 <= i < j < |stamps| && stamps[i].sent && stamps[j].sent :: SeparatePair(stamps[i], stamps[j])
  }

  ghost predicate SeparatePair(a: Stamp, b: Stamp) {
    a.updatedAt == b.updatedAt || a.at == b.at ==> a.profile == b.profile && OfferSet(a.offers) == OfferSet(b.offers)
  }

  lemma {:induction false} LaterReadsLater(stamps: seq<Stamp>, i: nat, j: nat)
    requires ClockMonotone(stamps) && i <= j < |stamps|
    ensures stamps[i].updatedAt <= stamps[j].updatedAt && stamps[i].at <= stamps[j].at
    decreases j - i
  {
    if i < j {
      LaterReadsLater(stamps, i, j - 1);
    }
  }

  lemma SeparateIsCoherent(stamps: seq<Stamp>)
    requires ClockMonotone(stamps) && SecondsSeparate(stamps)
    ensures Published(Sent(stamps)) && Coherent(Sent(stamps))
  {
    var sent := Sent(stamps);
    forall g, h | g in sent && h in sent
      ensures CoherentPair(g, h)
    {
      var i :| 0 <= i < |stamps| && stamps[i].sent && g == Beat(stamps[i]);
      var j :| 0 <= j < |stamps| && stamps[j].sent && h == Beat(stamps[j]);
      if i < j {
        LaterReadsLater(stamps, i, j);
        assert SeparatePair(stamps[i], stamps[j]);
      } else if j < i {
        LaterReadsLater(stamps, j, i);
        assert SeparatePair(stamps[j], stamps[i]);
      }
    }
  }

  lemma CoherentIsSeparate(stamps: seq<Stamp>)
    requires ClockMonotone(stamps)
    requires Published(Sent(stamps)) && Coherent(Sent(stamps))
    ensures SecondsSeparate(stamps)
  {
    forall i, j | 0 <= i < j < |stamps| && stamps[i].sent && stamps[j].sent
      ensures SeparatePair(stamps[i], stamps[j])
    {
      LaterReadsLater(stamps, i, j);
      assert Beat(stamps[i]) in Sent(stamps);
      assert Beat(stamps[j]) in Sent(stamps);
      assert CoherentPair(Beat(stamps[i]), Beat(stamps[j]));
    }
  }

  // Every receiver converges on every delivery exactly when no two published states that differ
  // share a second of either clock.
  lemma RunsConvergeIffSecondsSeparate(run: seq<Moment>)
    requires SenderRun(run)
    ensures SecondsSeparate(Stamps(run)) <==>
      forall hs | DeliveredFrom(Sent(Stamps(run)), hs) :: Converged(hs)
  {
    var stamps := Stamps(run);
    RunsHaveMonotoneClocks(run);
    ConvergesIffCoherent(Sent(stamps));
    if SecondsSeparate(stamps) {
      SeparateIsCoherent(stamps);
    }
    if Coherent(Sent(stamps)) {
      CoherentIsSeparate(stamps);
    }
  }

  // ------------------------------------------------- when changes happen, not what clocks say

  // While something is offered, the clock shows the last change.
  ghost predicate StampedAt(run: seq<Moment>, k: nat, d: nat)
    requires d <= k < |run|
  {
    if d == 0 then run[k].registry.lastUpdatedAt == run[0].registry.lastUpdatedAt
    else Changes(run[d - 1], run[d]) && run[k].registry.lastUpdatedAt == run[d].at
  }

  lemma {:induction false} ClockShowsAChange(run: seq<Moment>, k: nat) returns (d: nat)
    requires SenderRun(run) && k < |run| && run[k].registry.offersModuleMap != map[]
    ensures d <= k && StampedAt(run, k, d)
  {
    d := k;
    if k > 0 {
      RunsStaySynced(run, k - 1);
      ChangesAreStamped(run[k - 1], run[k]);
      if !Changes(run[k - 1], run[k]) {
        d := ClockShowsAChange(run, k - 1);
      }
    }
  }

  ghost predicate SaysTheSame(a: Moment, b: Moment) {
    a.profile == b.profile && HeartbeatOffers(a.registry) == HeartbeatOffers(b.registry)
  }

  lemma UnchangedSaysTheSame(a: Moment, b: Moment)
    requires Moves(a, b) && Synced(a.registry) && !Changes(a, b)
    ensures SaysTheSame(a, b)
  {
    if b.registry == Restarted(b.at) {
      NothingListed(a.registry);
      NothingListed(b.registry);
    } else if b.registry != a.registry {
      var step :| b.registry == Next(a.registry, step, b.at);
      StepKeepsPayloads(a.registry, step, b.at);
    }
  }

  lemma NothingListed(s: State)
    requires s.offersModuleMap == map[]
    ensures HeartbeatOffers(s) == map[]
  {
  }

  lemma SameListing(s: State, s': State)
    requires s'.modules == s.modules && s'.offersModuleMap == s.offersModuleMap
    ensures HeartbeatOffers(s') == HeartbeatOffers(s)
  {
    assert forall p, o :: ListedPayload(s', p, o) == ListedPayload(s, p, o);
    assert forall p | p in s.offersModuleMap :: HeartbeatOffers(s')[p] == HeartbeatOffers(s)[p];
  }

  lemma StepKeepsPayloads(s: State, step: Step, now: int)
    requires Synced(s) && Next(s, step, now).offersModuleMap == s.offersModuleMap
    ensures HeartbeatOffers(Next(s, step, now)) == HeartbeatOffers(s)
  {
    if step.ProvideStep? && step.c in s.connections && !Has(s.offersModuleMap, step.p, step.o) {
      assert Has(Next(s, step, now).offersModuleMap, step.p, step.o);
    }
    if step.CloseStep? && step.c in s.connections && s.connections[step.c].Some? {
      ModulesAreListed(s, s.connections[step.c].value);
    }
    SameListing(s, Next(s, step, now));
  }

  ghost predicate OnlyChangesTell(run: seq<Moment>) {
    forall c | 0 < c < |run| :: Changes(run[c - 1], run[c]) || SaysTheSame(run[c - 1], run[c])
  }

  lemma RunsOnlyChangesTell(run: seq<Moment>)
    requires SenderRun(run)
    ensures OnlyChangesTell(run)
  {
    forall c | 0 < c < |run|
      ensures Changes(run[c - 1], run[c]) || SaysTheSame(run[c - 1], run[c])
    {
      if !Changes(run[c - 1], run[c]) {
        RunsStaySynced(run, c - 1);
        UnchangedSaysTheSame(run[c - 1], run[c]);
      }
    }
  }

  // Between two moments that say different things something changed.
  lemma {:induction false} SomethingChanged(run: seq<Moment>, i: nat, j: nat) returns (c: nat)
    requires OnlyChangesTell(run) && i <= j < |run| && !SaysTheSame(run[i], run[j])
    ensures i < c <= j && Changes(run[c - 1], run[c])
    decreases j - i
  {
    c := j;
    if !Changes(run[j - 1], run[j]) {
      assert SaysTheSame(run[j - 1], run[j]);
      c := SomethingChanged(run, i, j - 1);
    }
  }

  // Changes and heartbeats in distinct seconds are enough, but more than is needed: a change that
  // is undone, or overtaken by another one before a heartbeat goes out, does no harm.
  lemma SpacedChangesSeparate(run: seq<Moment>)
    requires SenderRun(run) && ChangesSpaced(run) && HeartbeatsSpaced(Stamps(run))
    ensures SecondsSeparate(Stamps(run))
  {
    var stamps := Stamps(run);
    forall i, j | 0 <= i < j < |stamps| && stamps[i].sent && stamps[j].sent
      ensures SeparatePair(stamps[i], stamps[j])
    {
      if !SaysTheSame(run[i], run[j]) {
        ChangesMoveTheClock(run, i, j);
      }
    }
  }

  lemma ChangesMoveTheClock(run: seq<Moment>, i: nat, j: nat)
    requires SenderRun(run) && ChangesSpaced(run) && i < j < |run| && run[i].registry.offersModuleMap != map[]
    requires !SaysTheSame(run[i], run[j])
    ensures Seconds(run[i].registry.lastUpdatedAt) < Seconds(run[j].registry.lastUpdatedAt)
  {
    RunsOnlyChangesTell(run);
    var c := SomethingChanged(run, i, j);
    var d := ClockShowsAChange(run, i);
    EarlierChangeShowsEarlier(run, i, d, c);
    LaterClockShowsTheChange(run, c, j);
  }

  lemma EarlierChangeShowsEarlier(run: seq<Moment>, i: nat, d: nat, c: nat)
    requires ChangesSpaced(run) && d <= i < c < |run| && StampedAt(run, i, d) && Changes(run[c - 1], run[c])
    ensures Seconds(run[i].registry.lastUpdatedAt) < Seconds(run[c].at)
  {
    assert d > 0 ==> Changes(run[d - 1], run[d]);
  }

  lemma LaterClockShowsTheChange(run: seq<Moment>, c: nat, j: nat)
    requires SenderRun(run) && 0 < c <= j < |run| && Changes(run[c - 1], run[c])
    ensures Seconds(run[c].at) <= Seconds(run[j].registry.lastUpdatedAt)
  {
    ChangeIsStamped(run, c);
    ClockKeeps(run, c, j);
  }

  lemma ChangeIsStamped(run: seq<Moment>, c: nat)
    requires SenderRun(run) && 0 < c < |run| && Changes(run[c - 1], run[c])
    ensures run[c].registry.lastUpdatedAt == run[c].at
  {
    RunsStaySynced(run, c - 1);
    ChangesAreStamped(run[c - 1], run[c]);
  }

  lemma ClockKeeps(run: seq<Moment>, i: nat, j: nat)
    requires SenderRun(run) && i <= j < |run|
    ensures Seconds(run[i].registry.lastUpdatedAt) <= Seconds(run[j].registry.lastUpdatedAt)
  {
    RunsHaveMonotoneClocks(run);
    LaterReadsLater(Stamps(run), i, j);
  }

  // The provider offers (p, o) with this payload.
  ghost predicate Provides(s: State, p: Text, o: Text, payload: Text)
    requires Synced(s)
  {
    FindOffer(s, p, o).Some? && FindOffer(s, p, o).value.provided.payload == payload
  }

  lemma OfferSetIsProvided(s: State, p: Text, o: Text, payload: Text)
    requires Synced(s)
    ensures Provides(s, p, o, payload) <==> Offer(p, o, payload) in OfferSet(HeartbeatOffers(s))
  {
    HeartbeatOffersLookups(s);
    assert Offer(p, o, payload) in OfferSet(HeartbeatOffers(s)) <==> Get(HeartbeatOffers(s), p, o) == Some(payload);
  }

  // After any run of a receiver that got any selection of the provider's heartbeats, its active
  // rows for that provider are the provider's registry at the newest heartbeat it got.
  lemma {:induction false} ReceiversHoldTheRegistry(run: seq<Moment>, source: PeerId,
                                 states: seq<Tables>, inputs: seq<Input>, k: nat)
    requires SenderRun(run) && SecondsSeparate(Stamps(run))
    requires NodeRun(states, inputs) && source !in states[0].peers
    requires forall i | 0 <= i < |inputs| && inputs[i].LocalUpsert? :: inputs[i].own != source
    requires DeliveredFrom(Sent(Stamps(run)), ReceivedFrom(inputs, source))
    requires k < |run| && Newest(ReceivedFrom(inputs, source), Beat(Stamps(run)[k]))
    ensures NoClockError(ReceivedFrom(inputs, source))
    ensures Synced(run[k].registry)
    ensures forall p, o, payload ::
      Provides(run[k].registry, p, o, payload) <==>
        Offer(p, o, payload) in ActiveSet(states[|inputs|].rows, source)
    ensures source in states[|inputs|].peers && states[|inputs|].peers[source].profile == run[k].profile
  {
    var stamps := Stamps(run);
    RunsStaySynced(run, k);
    RunsHaveMonotoneClocks(run);
    SeparateIsCoherent(stamps);
    NodesConverge(states, inputs, source, Sent(stamps), Beat(stamps[k]));
    forall p, o, payload
      ensures Provides(run[k].registry, p, o, payload) <==>
        Offer(p, o, payload) in ActiveSet(states[|inputs|].rows, source)
    {
      OfferSetIsProvided(run[k].registry, p, o, payload);
    }
  }

  // The same from when things happen: offers come and go, and heartbeats are sent, in distinct seconds.
  lemma {:induction false} SpacedProvidersAreHeard(run: seq<Moment>, source: PeerId,
                                                   states: seq<Tables>, inputs: seq<Input>, k: nat)
    requires SenderRun(run) && ChangesSpaced(run) && HeartbeatsSpaced(Stamps(run))
    requires NodeRun(states, inputs) && source !in states[0].peers
    requires forall i | 0 <= i < |inputs| && inputs[i].LocalUpsert? :: inputs[i].own != source
    requires DeliveredFrom(Sent(Stamps(run)), ReceivedFrom(inputs, source))
    requires k < |run| && Newest(ReceivedFrom(inputs, source), Beat(Stamps(run)[k]))
    ensures Synced(run[k].registry)
    ensures forall p, o, payload ::
      Provides(run[k].registry, p, o, payload) <==>
        Offer(p, o, payload) in ActiveSet(states[|inputs|].rows, source)
  {
    SpacedChangesSeparate(run);
    ReceiversHoldTheRegistry(run, source, states, inputs, k);
  }

  lemma HeartbeatsAreNotEmpty(s: State)
    requires Synced(s)
    ensures s.offersModuleMap == map[] <==> OfferSet(HeartbeatOffers(s)) == {}
  {
    if s.offersModuleMap != map[] {
      assert s.offersModuleMap.Keys != {};
      var p := AnyKey(s.offersModuleMap);
      var o := AnyKey(s.offersModuleMap[p]);
      assert Has(s.offersModuleMap, p, o);
      OfferSetIsProvided(s, p, o, ListedPayload(s, p, o));
    }
  }

  // Withdrawing the last offer is never published. A receiver holds no active offers of the
  // provider exactly when it never heard of it, so whenever the provider offers nothing the
  // receiver is right about that exactly in this case.
  lemma {:induction false} LastOfferIsNeverWithdrawn(run: seq<Moment>, source: PeerId,
                                                     states: seq<Tables>, inputs: seq<Input>, now: nat)
    requires SenderRun(run)
    requires NodeRun(states, inputs)
    requires source !in states[0].peers && Referenced(states[0].peers, states[0].rows)
    requires forall i | 0 <= i < |inputs| && inputs[i].LocalUpsert? :: inputs[i].own != source
    requires DeliveredFrom(Sent(Stamps(run)), ReceivedFrom(inputs, source))
    requires now < |run|
    ensures ActiveSet(states[|inputs|].rows, source) == {} <==> ReceivedFrom(inputs, source) == []
    ensures Synced(run[now].registry)
    ensures run[now].registry.offersModuleMap == map[] ==>
      (ActiveSet(states[|inputs|].rows, source) == OfferSet(HeartbeatOffers(run[now].registry)) <==>
        ReceivedFrom(inputs, source) == [])
  {
    RunsStaySynced(run, now);
    HeartbeatsAreNotEmpty(run[now].registry);
    if ReceivedFrom(inputs, source) == [] {
      SilenceLeavesNothing(states, inputs, source);
    } else {
      HeardIsNotEmpty(run, source, states, inputs);
    }
  }

  lemma {:induction false} HeardIsNotEmpty(run: seq<Moment>, source: PeerId,
                                           states: seq<Tables>, inputs: seq<Input>)
    requires SenderRun(run)
    requires NodeRun(states, inputs) && source !in states[0].peers
    requires forall i | 0 <= i < |inputs| && inputs[i].LocalUpsert? :: inputs[i].own != source
    requires DeliveredFrom(Sent(Stamps(run)), ReceivedFrom(inputs, source))
    requires ReceivedFrom(inputs, source) != []
    ensures ActiveSet(states[|inputs|].rows, source) != {}
  {
    var hs := ReceivedFrom(inputs, source);
    forall h | h in hs
      ensures h.provider.Some? && OfferSet(h.provider.value.offers) != {}
    {
      assert h in Sent(Stamps(run));
      var k :| 0 <= k < |run| && Stamps(run)[k].sent && h == Beat(Stamps(run)[k]);
      RunsStaySynced(run, k);
      HeartbeatsAreNotEmpty(run[k].registry);
    }
    ReplaysKeepOffers(hs);
    RunReplays(states, inputs, source);
  }

  // ------------------------------------------------- the node's own snapshot rows

  ghost predicate NamesRow(offer: ProvidedOffer, rows: Rows, t: Triple) {
    offer.snapshotRowid in rows && rows[offer.snapshotRowid] == Row(t, offer.payload, true)
  }

  // Every live offer names an active row with its own triple and payload.
  ghost predicate Anchored(s: State, rows: Rows, own: PeerId) {
    forall m, p, o | m in s.modules && Has(s.modules[m], p, o) ::
      NamesRow(At(s.modules[m], p, o), rows, Triple(own, p, o))
  }

  // One payload per own (protocol, offer) pair, across restarts of modules and of the node.
  ghost predicate PayloadsFixed(rows: Rows, own: PeerId, pay: (Text, Text) -> Text) {
    forall i | i in rows && rows[i].triple.provider == own ::
      rows[i].active && rows[i].payload == pay(rows[i].triple.protocol, rows[i].triple.offer)
  }

  datatype Node = Node(registry: State, rows: Rows)

  datatype NodeEvent =
    | Connects(c: nat)
    | Offers(c: nat, p: Text, o: Text, payload: Text)
    | Disconnects(c: nat)
    | Hears(source: PeerId)
    | Restarts

  // What the methods of the server and of the heartbeat handler do to registry and rows.
  ghost predicate NodeNext(a: Node, event: NodeEvent, own: PeerId, b: Node) {
    match event
    case Connects(c) => b == a.(registry := Open(a.registry, c))
    case Disconnects(c) =>
      if c in a.registry.connections
      then b.rows == a.rows && exists now :: b.registry == Closed(a.registry, c, now)
      else b == a
    case Offers(c, p, o, payload) =>
      if c !in a.registry.connections || Has(a.registry.offersModuleMap, p, o) then b == a
      else exists id, now ::
        && b.registry == Provided(a.registry, c, p, o, ProvidedOffer(id, payload), now)
        && Evolved(a.rows, b.rows, own)
        && Upserted(a.rows, b.rows, Triple(own, p, o), payload, id)
    case Hears(source) => b.registry == a.registry && source != own && Evolved(a.rows, b.rows, source)
    case Restarts => b.rows == a.rows && exists now :: b.registry == Restarted(now)
  }

  ghost predicate NodeHistory(nodes: seq<Node>, events: seq<NodeEvent>, own: PeerId) {
    && |nodes| == |events| + 1
    && nodes[0] == Node(FRESH, nodes[0].rows)
    && forall k | 0 <= k < |events| :: NodeNext(nodes[k], events[k], own, nodes[k + 1])
  }

  ghost predicate ProvidesFixed(events: seq<NodeEvent>, pay: (Text, Text) -> Text) {
    forall e | e in events && e.Offers? :: e.payload == pay(e.p, e.o)
  }

  lemma ProvidingKeepsAnchors(a: Node, b: Node, own: PeerId, pay: (Text, Text) -> Text,
                              c: nat, p: Text, o: Text, id: int, now: int)
    requires Anchored(a.registry, a.rows, own) && PayloadsFixed(a.rows, own, pay)
    requires c in a.registry.connections && !Has(a.registry.offersModuleMap, p, o)
    requires b.registry == Provided(a.registry, c, p, o, ProvidedOffer(id, pay(p, o)), now)
    requires Evolved(a.rows, b.rows, own) && Upserted(a.rows, b.rows, Triple(own, p, o), pay(p, o), id)
    ensures Anchored(b.registry, b.rows, own) && PayloadsFixed(b.rows, own, pay)
  {
    var m := ModuleFor(a.registry, c);
    var previous := if m in a.registry.modules then a.registry.modules[m] else map[];
    PutLookups(previous, p, o, ProvidedOffer(id, pay(p, o)));
    assert b.rows[id] == Row(Triple(own, p, o), pay(p, o), true);
    forall n, q, r | n in b.registry.modules && Has(b.registry.modules[n], q, r)
      ensures NamesRow(At(b.registry.modules[n], q, r), b.rows, Triple(own, q, r))
    {
      var offer := At(b.registry.modules[n], q, r);
      assert Get(b.registry.modules[n], q, r) == Some(offer);
      if !(n == m && q == p && r == o) {
        assert n in a.registry.modules && Get(a.registry.modules[n], q, r) == Some(offer);
        assert At(a.registry.modules[n], q, r) == offer;
      }
    }
  }

  lemma HearingKeepsAnchors(a: Node, b: Node, own: PeerId, pay: (Text, Text) -> Text, source: PeerId)
    requires Anchored(a.registry, a.rows, own) && PayloadsFixed(a.rows, own, pay)
    requires b.registry == a.registry && source != own && Evolved(a.rows, b.rows, source)
    ensures Anchored(b.registry, b.rows, own) && PayloadsFixed(b.rows, own, pay)
  {
  }

  lemma NodeStepKeepsAnchors(a: Node, event: NodeEvent, b: Node, own: PeerId, pay: (Text, Text) -> Text)
    requires NodeNext(a, event, own, b)
    requires event.Offers? ==> event.payload == pay(event.p, event.o)
    requires Synced(a.registry) && Anchored(a.registry, a.rows, own) && PayloadsFixed(a.rows, own, pay)
    ensures Synced(b.registry) && Anchored(b.registry, b.rows, own) && PayloadsFixed(b.rows, own, pay)
  {
    match event
    case Connects(c) => StepKeepsSync(a.registry, OpenStep(c), 0);
    case Disconnects(c) =>
      if c in a.registry.connections {
        var now :| b.registry == Closed(a.registry, c, now);
        ClosingKeepsSync(a.registry, c, now);
      }
    case Offers(c, p, o, payload) =>
      if c in a.registry.connections && !Has(a.registry.offersModuleMap, p, o) {
        var id, now :|
          && b.registry == Provided(a.registry, c, p, o, ProvidedOffer(id, payload), now)
          && Evolved(a.rows, b.rows, own)
          && Upserted(a.rows, b.rows, Triple(own, p, o), payload, id);
        ProvidingKeepsAnchors(a, b, own, pay, c, p, o, id, now);
        ProvidingKeepsSync(a.registry, c, p, o, ProvidedOffer(id, payload), now);
      }
    case Hears(source) => HearingKeepsAnchors(a, b, own, pay, source);
    case Restarts =>
      assert b.registry.modules == map[] && b.registry.offersModuleMap == map[] && b.registry.connections == map[];
  }

  lemma {:induction false} OffersStayAnchored(nodes: seq<Node>, events: seq<NodeEvent>, own: PeerId,
                                              pay: (Text, Text) -> Text)
    requires NodeHistory(nodes, events, own) && ProvidesFixed(events, pay)
    requires PayloadsFixed(nodes[0].rows, own, pay)
    ensures Synced(nodes[|events|].registry)
    ensures Anchored(nodes[|events|].registry, nodes[|events|].rows, own)
    ensures PayloadsFixed(nodes[|events|].rows, own, pay)
  {
    if events != [] {
      var n := |events| - 1;
      forall e | e in events[..n]
        ensures e in events
      {
      }
      OffersStayAnchored(nodes[..n + 1], events[..n], own, pay);
      assert events[n] in events;
      NodeStepKeepsAnchors(nodes[n], events[n], nodes[n + 1], own, pay);
    }
  }

  // One call: the offers stay anchored exactly when no row of the pair has another payload.
  lemma ProvidingAnchorsIff(a: Node, b: Node, own: PeerId, c: nat, p: Text, o: Text, payload: Text, id: int, now: int)
    requires OneActive(a.rows) && OwnRowsActive(a.rows, own) && Anchored(a.registry, a.rows, own)
    requires c in a.registry.connections && !Has(a.registry.offersModuleMap, p, o)
    requires b.registry == Provided(a.registry, c, p, o, ProvidedOffer(id, payload), now)
    requires Evolved(a.rows, b.rows, own) && Upserted(a.rows, b.rows, Triple(own, p, o), payload, id)
    ensures Anchored(b.registry, b.rows, own) <==>
      forall i | i in a.rows && a.rows[i].triple == Triple(own, p, o) :: a.rows[i].payload == payload
  {
    var t, m := Triple(own, p, o), ModuleFor(a.registry, c);
    var previous := if m in a.registry.modules then a.registry.modules[m] else map[];
    PutLookups(previous, p, o, ProvidedOffer(id, payload));
    UpsertReturnsFirstPayload(a.rows, b.rows, t, payload, id);
    assert Get(b.registry.modules[m], p, o) == Some(ProvidedOffer(id, payload));
    assert Anchored(b.registry, b.rows, own) ==> NamesRow(ProvidedOffer(id, payload), b.rows, t);
    forall n, q, r | n in b.registry.modules && Has(b.registry.modules[n], q, r) && !(n == m && q == p && r == o)
      ensures NamesRow(At(b.registry.modules[n], q, r), b.rows, Triple(own, q, r))
    {
      var offer := At(b.registry.modules[n], q, r);
      assert Get(b.registry.modules[n], q, r) == Some(offer);
      assert n in a.registry.modules && Get(a.registry.modules[n], q, r) == Some(offer);
      assert NamesRow(offer, a.rows, Triple(own, q, r));
    }
  }

  // What a create request is answered with: the found offer's payload and that of the row it names.
  lemma FoundOffersNameTheirPayload(s: State, rows: Rows, own: PeerId, p: Text, o: Text)
    requires Synced(s) && Anchored(s, rows, own) && FindOffer(s, p, o).Some?
    ensures var provided := FindOffer(s, p, o).value.provided;
      provided.snapshotRowid in rows && rows[provided.snapshotRowid] == Row(Triple(own, p, o), provided.payload, true)
  {
    var found := FindOffer(s, p, o).value;
    assert Has(s.modules[found.moduleId], p, o);
    assert NamesRow(At(s.modules[found.moduleId], p, o), rows, Triple(own, p, o));
  }

  // What `Upsert` relies on: no step of a node ever leaves one of its own rows inactive.
  lemma {:induction false} OwnRowsStayActive(nodes: seq<Node>, events: seq<NodeEvent>, own: PeerId)
    requires NodeHistory(nodes, events, own) && OwnRowsActive(nodes[0].rows, own)
    ensures OwnRowsActive(nodes[|events|].rows, own)
  {
    if events != [] {
      var n := |events| - 1;
      OwnRowsStayActive(nodes[..n + 1], events[..n], own);
      NodeStepKeepsOwnRows(nodes[n], events[n], nodes[n + 1], own);
    }
  }

  lemma NodeStepKeepsOwnRows(a: Node, event: NodeEvent, b: Node, own: PeerId)
    requires NodeNext(a, event, own, b) && OwnRowsActive(a.rows, own)
    ensures OwnRowsActive(b.rows, own)
  {
  }

  // Providing an offer sends no event to subscribers of active offers: on the provider's own node
  // an earlier query stays right exactly when the triple was active already or is not asked for.
  lemma ProvidingIsSilent(before: Rows, after: Rows, t: Triple, payload: Text, id: int, f: LiveView.OfferFilter)
    requires OneActive(before) && OneActive(after)
    requires Upserted(before, after, t, payload, id)
    ensures LiveView.QueryView(after, f) == LiveView.QueryView(before, f) <==>
      HasActive(before, t) || !LiveView.QueryMatches(f, t.protocol, t.provider)
  {
    forall u
      ensures u in LiveView.QueryView(after, f) <==>
        u in LiveView.QueryView(before, f) || (u == t && LiveView.QueryMatches(f, t.protocol, t.provider))
      ensures u in LiveView.QueryView(before, f) ==> LiveView.QueryView(after, f)[u] == LiveView.QueryView(before, f)[u]
    {
      LiveView.QueryViewAt(before, f, u);
      LiveView.QueryViewAt(after, f, u);
      OthersStayActive(before, after, t, payload, id, u);
    }
    LiveView.QueryViewAt(before, f, t);
    if HasActive(before, t) || !LiveView.QueryMatches(f, t.protocol, t.provider) {
      assert LiveView.QueryView(after, f).Keys == LiveView.QueryView(before, f).Keys;
    } else {
      assert t in LiveView.QueryView(after, f) && t !in LiveView.QueryView(before, f);
    }
  }

  lemma OthersStayActive(before: Rows, after: Rows, t: Triple, payload: Text, id: int, u: Triple)
    requires OneActive(before) && OneActive(after)
    requires Upserted(before, after, t, payload, id)
    ensures HasActive(after, u) <==> HasActive(before, u) || u == t
    ensures forall i | i in before && before[i].active && before[i].triple == u :: i in after && after[i] == before[i]
  {
    if HasActive(before, u) {
      var i :| i in before && before[i].active && before[i].triple == u;
      assert after[i] == before[i];
    }
    if HasActive(after, u) && u != t {
      var i :| i in after && after[i].active && after[i].triple == u;
      assert i in before && before[i] == after[i];
    }
  }

  // A job row refers to a snapshot row by id. From the moment the row is there, inserted by whatever
  // event, it stays, with its triple and payload.
  lemma {:induction false} ReferencedRowsNeverChange(nodes: seq<Node>, events: seq<NodeEvent>, own: PeerId,
                                                     n: nat, id: int)
    requires NodeHistory(nodes, events, own)
    requires n <= |events| && id in nodes[n].rows
    ensures id in nodes[|events|].rows
    ensures nodes[|events|].rows[id].triple == nodes[n].rows[id].triple
    ensures nodes[|events|].rows[id].payload == nodes[n].rows[id].payload
    decreases |events|
  {
    if n < |events| {
      var m := |events| - 1;
      ReferencedRowsNeverChange(nodes[..m + 1], events[..m], own, n, id);
      assert NodeNext(nodes[m], events[m], own, nodes[m + 1]);
    }
  }
}
