/**
 Subscriptions to active offers: a client that queried once and then applies the
 events of each heartbeat keeps a view equal to the query's answer.
 */
module LiveView {
  import opened Base
  import opened Snapshots
  import opened Heartbeats

  datatype OfferFilter = OfferFilter(protocols: Option<seq<Text>>, providers: Option<seq<PeerId>>)

  // The WHERE clause of the query: both lists apply.
  predicate QueryMatches(f: OfferFilter, protocol: Text, provider: PeerId) {
    && (f.protocols.Some? ==> protocol in f.protocols.value)
    && (f.providers.Some? ==> provider in f.providers.value)
  }

  // The event filter: the provider list is looked at only when there is no protocol list.
  predicate EventMatches(f: OfferFilter, protocol: Text, provider: PeerId) {
    if f.protocols.Some? then protocol in f.protocols.value
    else if f.providers.Some? then provider in f.providers.value
    else true
  }

  // What a caller can check: for heartbeats of `source` the two filters say the same.
  predicate FiltersAgreeOn(f: OfferFilter, source: PeerId) {
    f.protocols.None? || f.providers.None? || f.protocols.value == [] || source in f.providers.value
  }

  lemma EventFilterIsWeaker(f: OfferFilter, source: PeerId)
    ensures forall p, s :: QueryMatches(f, p, s) ==> EventMatches(f, p, s)
    ensures FiltersAgreeOn(f, source) <==> forall p :: EventMatches(f, p, source) == QueryMatches(f, p, source)
  {
    if !FiltersAgreeOn(f, source) {
      assert EventMatches(f, f.protocols.value[0], source) != QueryMatches(f, f.protocols.value[0], source);
    }
  }

  datatype Entry = Entry(snapshotId: int, payload: Text)

  type View = map<Triple, Entry>

  ghost function ActiveTriples(rows: Rows): set<Triple> {
    set i | i in rows && rows[i].active :: rows[i].triple
  }

  ghost function ActiveEntry(rows: Rows, t: Triple): Entry
    requires t in ActiveTriples(rows)
  {
    var i :| i in rows && rows[i].active && rows[i].triple == t;
    Entry(i, rows[i].payload)
  }

  // query_active_offers, keyed by (provider, protocol, offer).
  ghost function QueryView(rows: Rows, f: OfferFilter): View {
    map t | t in ActiveTriples(rows) && QueryMatches(f, t.protocol, t.provider) :: ActiveEntry(rows, t)
  }

  function ReceiveRemoved(v: View, f: OfferFilter, es: seq<OfferRemoved>): View {
    if es == [] then v
    else
      var rest, e := ReceiveRemoved(v, f, es[..|es| - 1]), es[|es| - 1];
      if EventMatches(f, e.triple.protocol, e.triple.provider) then rest - {e.triple} else rest
  }

  function ReceiveUpdated(v: View, f: OfferFilter, es: seq<OfferUpdated>): View {
    if es == [] then v
    else
      var rest, e := ReceiveUpdated(v, f, es[..|es| - 1]), es[|es| - 1];
      if EventMatches(f, e.triple.protocol, e.triple.provider) then rest[e.triple := Entry(e.id, e.payload)]
      else rest
  }

  // Removals are broadcast before updates.
  function ReceiveAll(v: View, f: OfferFilter, removed: seq<OfferRemoved>, updated: seq<OfferUpdated>): View {
    ReceiveUpdated(ReceiveRemoved(v, f, removed), f, updated)
  }

  lemma {:induction false} RemovedAt(v: View, f: OfferFilter, es: seq<OfferRemoved>, t: Triple)
    ensures t in ReceiveRemoved(v, f, es) <==>
      t in v && !(EventMatches(f, t.protocol, t.provider) && exists e :: e in es && e.triple == t)
    ensures t in ReceiveRemoved(v, f, es) ==> ReceiveRemoved(v, f, es)[t] == v[t]
  {
    if es != [] {
      var earlier, e := es[..|es| - 1], es[|es| - 1];
      RemovedAt(v, f, earlier, t);
      assert es == earlier + [e];
      assert e in es;
    }
  }

  lemma {:induction false} UpdatedAt(v: View, f: OfferFilter, es: seq<OfferUpdated>, t: Triple)
    requires forall d, e | d in es && e in es && d.triple == e.triple :: d == e
    ensures (forall e | e in es :: e.triple != t) || !EventMatches(f, t.protocol, t.provider) ==>
      (t in ReceiveUpdated(v, f, es) <==> t in v) && (t in v ==> ReceiveUpdated(v, f, es)[t] == v[t])
    ensures forall e | e in es && e.triple == t && EventMatches(f, t.protocol, t.provider) ::
      t in ReceiveUpdated(v, f, es) && ReceiveUpdated(v, f, es)[t] == Entry(e.id, e.payload)
  {
    if es != [] {
      var earlier, last := es[..|es| - 1], es[|es| - 1];
      assert es == earlier + [last];
      UpdatedAt(v, f, earlier, t);
      assert last in es;
    }
  }

  ghost function Restrict(v: View, f: OfferFilter): View {
    map t | t in v && QueryMatches(f, t.protocol, t.provider) :: v[t]
  }

  lemma QueryViewAt(rows: Rows, f: OfferFilter, t: Triple)
    requires OneActive(rows)
    ensures t in QueryView(rows, f) <==> HasActive(rows, t) && QueryMatches(f, t.protocol, t.provider)
    ensures forall i | i in rows && rows[i].active && rows[i].triple == t && t in QueryView(rows, f) ::
      QueryView(rows, f)[t] == Entry(i, rows[i].payload)
  {
  }

  // The query answers with the active triples that are in each list that is set, and with the rowid
  // and payload of their active row.
  lemma QueryAnswers(rows: Rows, f: OfferFilter, t: Triple)
    requires OneActive(rows)
    ensures t in QueryView(rows, f) <==>
      && (exists i :: i in rows && rows[i].active && rows[i].triple == t)
      && (f.protocols.None? || t.protocol in f.protocols.value)
      && (f.providers.None? || t.provider in f.providers.value)
    ensures t in QueryView(rows, f) ==>
      var entry := QueryView(rows, f)[t];
      entry.snapshotId in rows && rows[entry.snapshotId] == Row(t, entry.payload, true)
  {
    QueryViewAt(rows, f, t);
    if HasActive(rows, t) {
      var i :| i in rows && rows[i].active && rows[i].triple == t;
    }
  }

  function EntryAt(v: View, t: Triple): Option<Entry> {
    if t in v then Some(v[t]) else None
  }

  // One triple through a heartbeat, from any view: either its events set the entry to what the
  // query now says, or none mentions it and neither the entry nor the query's answer changed.
  lemma EntryFollows(before: Rows, after: Rows, source: PeerId, f: OfferFilter, v: View,
                     removed: seq<OfferRemoved>, updated: seq<OfferUpdated>, t: Triple)
    requires HeartbeatEffect(before, after, source, removed, updated)
    requires QueryMatches(f, t.protocol, t.provider)
    ensures var entry := EntryAt(ReceiveAll(v, f, removed, updated), t);
      || entry == EntryAt(QueryView(after, f), t)
      || (entry == EntryAt(v, t) && EntryAt(QueryView(after, f), t) == EntryAt(QueryView(before, f), t))
  {
    EventFilterIsWeaker(f, source);
    RemovedAt(v, f, removed, t);
    UpdatesAreDistinct(before, after, source, removed, updated);
    UpdatedAt(ReceiveRemoved(v, f, removed), f, updated, t);
    QueryViewAt(before, f, t);
    QueryViewAt(after, f, t);
    if HasActive(after, t) {
      var j :| j in after && after[j].active && after[j].triple == t;
      if j in before && before[j].active {
        forall e | e in updated
          ensures e.triple != t
        {
          assert WasUpdated(before, after, source, e);
        }
        forall e | e in removed
          ensures e.triple != t
        {
          assert WasRemoved(before, after, source, e);
        }
      } else {
        assert t.provider == source;
        assert WasUpdated(before, after, source, OfferUpdated(j, t, after[j].payload));
      }
    } else {
      forall e | e in updated
        ensures e.triple != t
      {
        assert WasUpdated(before, after, source, e);
      }
      if HasActive(before, t) {
        var i :| i in before && before[i].active && before[i].triple == t;
        assert t.provider == source;
        assert WasRemoved(before, after, source, OfferRemoved(i, t));
      } else {
        forall e | e in removed
          ensures e.triple != t
        {
          assert WasRemoved(before, after, source, e);
        }
      }
    }
  }

  lemma UpdatesAreDistinct(before: Rows, after: Rows, source: PeerId,
                           removed: seq<OfferRemoved>, updated: seq<OfferUpdated>)
    requires OneActive(after) && ExactDelta(before, after, source, removed, updated)
    ensures forall d, e | d in updated && e in updated && d.triple == e.triple :: d == e
  {
  }

  lemma EqualEntries(v: View, w: View, f: OfferFilter)
    requires Restrict(w, f) == w
    requires forall t: Triple | QueryMatches(f, t.protocol, t.provider) :: EntryAt(v, t) == EntryAt(w, t)
    ensures Restrict(v, f) == w
  {
    forall t
      ensures t in Restrict(v, f) <==> t in w
      ensures t in w ==> Restrict(v, f)[t] == w[t]
    {
      assert t in w <==> t in Restrict(w, f);
      if QueryMatches(f, t.protocol, t.provider) {
        assert EntryAt(v, t) == EntryAt(w, t);
      }
    }
  }

  // Whatever lists are set, no event that the query would want is missed.
  lemma NothingMissed(before: Rows, after: Rows, source: PeerId, f: OfferFilter, v: View,
                      removed: seq<OfferRemoved>, updated: seq<OfferUpdated>)
    requires HeartbeatEffect(before, after, source, removed, updated)
    requires Restrict(v, f) == QueryView(before, f)
    ensures Restrict(ReceiveAll(v, f, removed, updated), f) == QueryView(after, f)
  {
    forall t: Triple | QueryMatches(f, t.protocol, t.provider)
      ensures EntryAt(ReceiveAll(v, f, removed, updated), t) == EntryAt(QueryView(after, f), t)
    {
      EntryFollows(before, after, source, f, v, removed, updated, t);
      assert EntryAt(v, t) == EntryAt(Restrict(v, f), t);
    }
    EqualEntries(ReceiveAll(v, f, removed, updated), QueryView(after, f), f);
  }

  ghost predicate ViewFollows(before: Rows, after: Rows, source: PeerId, f: OfferFilter,
                              removed: seq<OfferRemoved>, updated: seq<OfferUpdated>)
    requires OneActive(before) && OneActive(after)
  {
    ReceiveAll(QueryView(before, f), f, removed, updated) == QueryView(after, f)
  }

  ghost predicate HeartbeatEffect(before: Rows, after: Rows, source: PeerId,
                                  removed: seq<OfferRemoved>, updated: seq<OfferUpdated>) {
    && OneActive(before) && OneActive(after)
    && Evolved(before, after, source) && ExactDelta(before, after, source, removed, updated)
  }

  // Where the filters agree, a view never gains an entry that the query does not want.
  lemma NothingExtra(before: Rows, after: Rows, source: PeerId, f: OfferFilter, v: View,
                     removed: seq<OfferRemoved>, updated: seq<OfferUpdated>)
    requires HeartbeatEffect(before, after, source, removed, updated)
    requires FiltersAgreeOn(f, source) && Restrict(v, f) == v
    ensures Restrict(ReceiveAll(v, f, removed, updated), f) == ReceiveAll(v, f, removed, updated)
  {
    EventFilterIsWeaker(f, source);
    UpdatesAreDistinct(before, after, source, removed, updated);
    forall t | t in ReceiveAll(v, f, removed, updated)
      ensures QueryMatches(f, t.protocol, t.provider)
    {
      RemovedAt(v, f, removed, t);
      UpdatedAt(ReceiveRemoved(v, f, removed), f, updated, t);
      if t in v {
        assert t in Restrict(v, f);
      } else {
        var e :| e in updated && e.triple == t;
        assert WasUpdated(before, after, source, e);
      }
    }
  }

  lemma AgreeingFiltersFollow(before: Rows, after: Rows, source: PeerId, f: OfferFilter,
                              removed: seq<OfferRemoved>, updated: seq<OfferUpdated>)
    requires HeartbeatEffect(before, after, source, removed, updated)
    requires FiltersAgreeOn(f, source)
    ensures ViewFollows(before, after, source, f, removed, updated)
  {
    var v := QueryView(before, f);
    assert Restrict(v, f) == v;
    NothingMissed(before, after, source, f, v, removed, updated);
    NothingExtra(before, after, source, f, v, removed, updated);
  }

  // A first offer on a protocol the client asked for, from a provider it did not ask for: the
  // heartbeat of a peer unknown until then.
  lemma DisagreeingFiltersFail(source: PeerId, f: OfferFilter, profile: Profile, offer: Text, payload: Text)
    returns (heartbeat: Heartbeat, peers': map<PeerId, PeerRow>, after: Rows, updated: seq<OfferUpdated>)
    requires !FiltersAgreeOn(f, source)
    ensures Handled(map[], map[], peers', after, source, heartbeat, Accepted(Events([], [], [], updated)))
    ensures HeartbeatEffect(map[], after, source, [], updated)
    ensures !ViewFollows(map[], after, source, f, [], updated)
  {
    var t := Triple(source, f.protocols.value[0], offer);
    var outcome;
    heartbeat, peers', after, outcome := FirstOffer(t, payload, profile, 1, 1);
    updated := outcome.events.updated;
    assert updated[..0] == [];
    var v: View := map[];
    assert ReceiveUpdated(v, f, updated) == v[t := Entry(1, payload)];
    assert QueryView(map[], f) == v;
    QueryViewAt(after, f, t);
    assert t in ReceiveAll(QueryView(map[], f), f, [], updated);
  }

  // The live view is exact for every possible heartbeat of `source` exactly when at most one
  // list is set, or the protocol list is empty, or `source` is in the provider list.
  lemma LiveViewIffFiltersAgree(source: PeerId, f: OfferFilter)
    ensures FiltersAgreeOn(f, source) <==>
      forall peers, before, peers', after, heartbeat, outcome |
        OneActive(before) && OneActive(after)
        && Handled(peers, before, peers', after, source, heartbeat, outcome) && outcome.Accepted? ::
          ViewFollows(before, after, source, f, outcome.events.removed, outcome.events.updated)
  {
    if FiltersAgreeOn(f, source) {
      forall peers, before, peers', after, heartbeat, outcome |
        OneActive(before) && OneActive(after)
        && Handled(peers, before, peers', after, source, heartbeat, outcome) && outcome.Accepted?
        ensures ViewFollows(before, after, source, f, outcome.events.removed, outcome.events.updated)
      {
        HeartbeatsHaveEffects(peers, before, peers', after, source, heartbeat, outcome);
        AgreeingFiltersFollow(before, after, source, f, outcome.events.removed, outcome.events.updated);
      }
    } else {
      var heartbeat, peers', after, updated := DisagreeingFiltersFail(source, f, BARE_PEER.profile, [], []);
    }
  }

  // --------------------------------------------------------------- whole histories

  // What a subscriber was sent for one heartbeat.
  datatype Batch = Batch(source: PeerId, removed: seq<OfferRemoved>, updated: seq<OfferUpdated>)

  function ViewAfter(v: View, f: OfferFilter, batches: seq<Batch>): View {
    if batches == [] then v
    else
      var last := batches[|batches| - 1];
      ReceiveAll(ViewAfter(v, f, batches[..|batches| - 1]), f, last.removed, last.updated)
  }

  // The node's own provider modules change its tables without an event.
  ghost predicate OwnProvide(before: Rows, after: Rows, own: PeerId, batch: Batch) {
    && OneActive(before) && OneActive(after) && Evolved(before, after, own)
    && batch.removed == [] && batch.updated == []
  }

  ghost predicate Broadcast(before: Rows, after: Rows, batch: Batch) {
    HeartbeatEffect(before, after, batch.source, batch.removed, batch.updated)
  }

  ghost predicate TableRun(tables: seq<Rows>, batches: seq<Batch>, own: PeerId) {
    && |tables| == |batches| + 1
    && forall k | 0 <= k < |batches| ::
         Broadcast(tables[k], tables[k + 1], batches[k]) || OwnProvide(tables[k], tables[k + 1], own, batches[k])
  }

  ghost predicate NoOwnProvides(tables: seq<Rows>, batches: seq<Batch>)
    requires |tables| == |batches| + 1
  {
    forall k | 0 <= k < |batches| :: Broadcast(tables[k], tables[k + 1], batches[k])
  }

  predicate FiltersAgree(f: OfferFilter, batches: seq<Batch>) {
    forall b | b in batches :: (b.removed == [] && b.updated == []) || FiltersAgreeOn(f, b.source)
  }

  // The view of a client that was sent batches k..m and whose query was answered from table j.
  ghost function ViewAt(tables: seq<Rows>, batches: seq<Batch>, f: OfferFilter, k: nat, j: nat, m: nat): View
    requires k <= j < |tables| && k <= m <= |batches|
  {
    ViewAfter(QueryView(tables[j], f), f, batches[k..m])
  }

  lemma ViewAtNext(tables: seq<Rows>, batches: seq<Batch>, f: OfferFilter, k: nat, j: nat, m: nat)
    requires k <= j < |tables| && k <= m < |batches|
    ensures ViewAt(tables, batches, f, k, j, m + 1) ==
      ReceiveAll(ViewAt(tables, batches, f, k, j, m), f, batches[m].removed, batches[m].updated)
  {
    var sent := batches[k..m + 1];
    assert sent[..|sent| - 1] == batches[k..m];
  }

  // The client's entry of a triple, and what the query would answer for it.
  ghost function EntryOf(tables: seq<Rows>, batches: seq<Batch>, f: OfferFilter, k: nat, j: nat, m: nat, t: Triple)
    : Option<Entry>
    requires k <= j < |tables| && k <= m <= |batches|
  {
    EntryAt(ViewAt(tables, batches, f, k, j, m), t)
  }

  ghost function AnswerOf(tables: seq<Rows>, f: OfferFilter, m: nat, t: Triple): Option<Entry>
    requires m < |tables|
  {
    EntryAt(QueryView(tables[m], f), t)
  }

  predicate Follows(entry: Option<Entry>, entry': Option<Entry>, answer: Option<Entry>, answer': Option<Entry>) {
    entry' == answer' || (entry' == entry && answer' == answer)
  }

  ghost predicate StepFollows(tables: seq<Rows>, batches: seq<Batch>, f: OfferFilter, k: nat, j: nat, m: nat, t: Triple)
    requires |tables| == |batches| + 1 && k <= j <= |batches| && k <= m < |batches|
  {
    Follows(EntryOf(tables, batches, f, k, j, m, t), EntryOf(tables, batches, f, k, j, m + 1, t),
            AnswerOf(tables, f, m, t), AnswerOf(tables, f, m + 1, t))
  }

  lemma OwnProvideIsQuiet(before: Rows, after: Rows, own: PeerId, batch: Batch, f: OfferFilter, t: Triple)
    requires OwnProvide(before, after, own, batch) && t.provider != own
    ensures EntryAt(QueryView(after, f), t) == EntryAt(QueryView(before, f), t)
  {
    QueryViewAt(before, f, t);
    QueryViewAt(after, f, t);
    if HasActive(before, t) {
      var i :| i in before && before[i].active && before[i].triple == t;
      assert after[i] == before[i];
    }
    if HasActive(after, t) {
      var i :| i in after && after[i].active && after[i].triple == t;
      assert i in before && before[i] == after[i];
    }
  }

  lemma EntryFollowsNext(tables: seq<Rows>, batches: seq<Batch>, f: OfferFilter, own: PeerId,
                         k: nat, j: nat, m: nat, t: Triple)
    requires TableRun(tables, batches, own) && k <= j < |tables| && k <= m < |batches|
    requires QueryMatches(f, t.protocol, t.provider)
    requires t.provider != own || Broadcast(tables[m], tables[m + 1], batches[m])
    ensures StepFollows(tables, batches, f, k, j, m, t)
  {
    ViewAtNext(tables, batches, f, k, j, m);
    if Broadcast(tables[m], tables[m + 1], batches[m]) {
      EntryFollows(tables[m], tables[m + 1], batches[m].source, f, ViewAt(tables, batches, f, k, j, m),
                   batches[m].removed, batches[m].updated, t);
    } else {
      OwnProvideIsQuiet(tables[m], tables[m + 1], own, batches[m], f, t);
    }
  }

  lemma StartsAtQuery(tables: seq<Rows>, batches: seq<Batch>, f: OfferFilter, k: nat, j: nat)
    requires k <= j < |tables| && k <= |batches|
    ensures ViewAt(tables, batches, f, k, j, k) == QueryView(tables[j], f)
  {
    assert batches[k..k] == [];
  }

  // Batches older than the query are received again. Until the client has caught up, an entry is
  // that of the table the batches have reached or still that of the query; from then on the former.
  ghost predicate CaughtUp(entry: Option<Entry>, answer: Option<Entry>, first: Option<Entry>, m: nat, j: nat) {
    entry == answer || (m < j && entry == first)
  }

  lemma {:induction false} EntriesCatchUp(tables: seq<Rows>, batches: seq<Batch>, f: OfferFilter,
                                          k: nat, j: nat, m: nat, t: Triple)
    requires |tables| == |batches| + 1 && k <= j <= |batches| && k <= m <= |batches|
    requires forall n | k <= n < m :: StepFollows(tables, batches, f, k, j, n, t)
    ensures CaughtUp(EntryOf(tables, batches, f, k, j, m, t), AnswerOf(tables, f, m, t), AnswerOf(tables, f, j, t), m, j)
    decreases m
  {
    if k == m {
      StartsAtQuery(tables, batches, f, k, j);
    } else {
      EntriesCatchUp(tables, batches, f, k, j, m - 1, t);
      assert StepFollows(tables, batches, f, k, j, m - 1, t);
      StaysCaughtUp(EntryOf(tables, batches, f, k, j, m - 1, t), EntryOf(tables, batches, f, k, j, m, t),
                    AnswerOf(tables, f, m - 1, t), AnswerOf(tables, f, m, t), AnswerOf(tables, f, j, t), m, j);
    }
  }

  lemma StaysCaughtUp(entry: Option<Entry>, entry': Option<Entry>, answer: Option<Entry>, answer': Option<Entry>,
                      first: Option<Entry>, m: nat, j: nat)
    requires m > 0 && CaughtUp(entry, answer, first, m - 1, j) && Follows(entry, entry', answer, answer')
    requires m == j ==> answer' == first
    ensures CaughtUp(entry', answer', first, m, j)
  {
  }

  lemma {:induction false} NothingExtraEver(tables: seq<Rows>, batches: seq<Batch>, f: OfferFilter, own: PeerId,
                                            k: nat, j: nat, m: nat)
    requires TableRun(tables, batches, own) && k <= j <= |batches| && k <= m <= |batches|
    requires FiltersAgree(f, batches)
    ensures Restrict(ViewAt(tables, batches, f, k, j, m), f) == ViewAt(tables, batches, f, k, j, m)
    decreases m
  {
    if k == m {
      StartsAtQuery(tables, batches, f, k, j);
    } else {
      var n := m - 1;
      NothingExtraEver(tables, batches, f, own, k, j, n);
      ViewAtNext(tables, batches, f, k, j, n);
      assert batches[n] in batches;
      if batches[n].removed != [] || batches[n].updated != [] {
        NothingExtra(tables[n], tables[n + 1], batches[n].source, f, ViewAt(tables, batches, f, k, j, n),
                     batches[n].removed, batches[n].updated);
      }
    }
  }

  lemma CaughtUpEntry(tables: seq<Rows>, batches: seq<Batch>, f: OfferFilter, own: PeerId,
                      k: nat, j: nat, m: nat, t: Triple)
    requires TableRun(tables, batches, own) && k <= j <= m <= |batches|
    requires QueryMatches(f, t.protocol, t.provider)
    requires t.provider != own || NoOwnProvides(tables, batches)
    ensures EntryOf(tables, batches, f, k, j, m, t) == AnswerOf(tables, f, m, t)
  {
    forall n | k <= n < m
      ensures StepFollows(tables, batches, f, k, j, n, t)
    {
      EntryFollowsNext(tables, batches, f, own, k, j, n, t);
    }
    EntriesCatchUp(tables, batches, f, k, j, m, t);
  }

  // A client subscribes after k changes of the tables and queries after j, so that it is sent again
  // what the query already shows. Once it has received everything up to m its entries of other
  // providers' offers are the query's answer. If the node provides nothing meanwhile, the whole
  // view is, restricted to what the query wants; where the filters agree nothing is to be left out.
  lemma {:induction false} ViewsFollowRuns(tables: seq<Rows>, batches: seq<Batch>, f: OfferFilter, own: PeerId,
                                           k: nat, j: nat, m: nat)
    requires TableRun(tables, batches, own) && k <= j <= m <= |batches|
    ensures forall t: Triple | QueryMatches(f, t.protocol, t.provider) && t.provider != own ::
      EntryOf(tables, batches, f, k, j, m, t) == AnswerOf(tables, f, m, t)
    ensures FiltersAgree(f, batches) ==>
      forall t: Triple | t in ViewAt(tables, batches, f, k, j, m) :: QueryMatches(f, t.protocol, t.provider)
    ensures NoOwnProvides(tables, batches) ==>
      && Restrict(ViewAt(tables, batches, f, k, j, m), f) == QueryView(tables[m], f)
      && (FiltersAgree(f, batches) ==> ViewAt(tables, batches, f, k, j, m) == QueryView(tables[m], f))
  {
    forall t: Triple | QueryMatches(f, t.protocol, t.provider) && (t.provider != own || NoOwnProvides(tables, batches))
      ensures EntryOf(tables, batches, f, k, j, m, t) == AnswerOf(tables, f, m, t)
    {
      CaughtUpEntry(tables, batches, f, own, k, j, m, t);
    }
    var v := ViewAt(tables, batches, f, k, j, m);
    if FiltersAgree(f, batches) {
      NothingExtraEver(tables, batches, f, own, k, j, m);
      assert forall t | t in v :: t in Restrict(v, f);
    }
    if NoOwnProvides(tables, batches) {
      assert forall t: Triple | QueryMatches(f, t.protocol, t.provider) ::
        EntryOf(tables, batches, f, k, j, m, t) == AnswerOf(tables, f, m, t);
      EqualEntries(v, QueryView(tables[m], f), f);
    }
  }

  // Every accepted heartbeat is such an effect.
  lemma HeartbeatsHaveEffects(peers: map<PeerId, PeerRow>, before: Rows, peers': map<PeerId, PeerRow>, after: Rows,
                              source: PeerId, heartbeat: Heartbeat, outcome: Outcome)
    requires Handled(peers, before, peers', after, source, heartbeat, outcome)
    requires OneActive(before) && OneActive(after)
    ensures HeartbeatEffect(before, after, source,
              if outcome.Accepted? then outcome.events.removed else [],
              if outcome.Accepted? then outcome.events.updated else [])
  {
  }

  // ------------------------------------------------------------------- dispatch

  datatype Subscription = Jobs | ActiveOffers(filter: OfferFilter) | ActiveProviders

  datatype RpcEvent = RemovedEvent(removed: OfferRemoved) | UpdatedEvent(updated: OfferUpdated)

  function EventTriple(event: RpcEvent): Triple {
    match event
    case RemovedEvent(e) => e.triple
    case UpdatedEvent(e) => e.triple
  }

  predicate Wants(s: Subscription, event: RpcEvent) {
    s.ActiveOffers? && EventMatches(s.filter, EventTriple(event).protocol, EventTriple(event).provider)
  }

  // One frame for each subscription that wants the event.
  method HandleOfferEvent(subscriptions: map<nat, Subscription>, event: RpcEvent) returns (frames: seq<(nat, RpcEvent)>)
    ensures NoDuplicates(frames)
    ensures forall x :: x in frames <==> x.1 == event && x.0 in subscriptions && Wants(subscriptions[x.0], event)
    // who gets the frame, by the lists that the subscription sets
    ensures forall id | id in subscriptions && !subscriptions[id].ActiveOffers? :: (id, event) !in frames
    ensures forall id | id in subscriptions && subscriptions[id].ActiveOffers? ::
      var f, t := subscriptions[id].filter, EventTriple(event);
      && (f.protocols.Some? ==> ((id, event) in frames <==> t.protocol in f.protocols.value))
      && (f.protocols.None? && f.providers.Some? ==> ((id, event) in frames <==> t.provider in f.providers.value))
      && (f.protocols.None? && f.providers.None? ==> (id, event) in frames)
  {
    frames := [];
    var todo := subscriptions.Keys;
    while todo != {}
      invariant todo <= subscriptions.Keys
      invariant NoDuplicates(frames)
      invariant forall x :: x in frames <==>
        x.1 == event && x.0 in subscriptions && x.0 !in todo && Wants(subscriptions[x.0], event)
    {
      var id := Pick(todo);
      todo := todo - {id};
      if Wants(subscriptions[id], event) {
        frames := frames + [(id, event)];
      }
    }
  }
}
