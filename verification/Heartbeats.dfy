/**
 Receiving a heartbeat: the timestamp gate, the three-way comparison of the
 provider clock, and the two-phase reconciliation of the snapshot table.
 */
module Heartbeats {
  import opened Base
  import opened Nested
  import opened Snapshots

  // The offers are `{ ProtocolId => { OfferId => payload } }`; both clocks are whole seconds.
  datatype Details = Details(profile: Profile, offers: Nested<Text>, updatedAt: int)

  datatype Heartbeat = Heartbeat(provider: Option<Details>, timestamp: int)

  const TIME_ZERO := 0

  datatype OfferRemoved = OfferRemoved(id: int, triple: Triple)

  datatype OfferUpdated = OfferUpdated(id: int, triple: Triple, payload: Text)

  datatype Events = Events(
    providersUpdated: seq<(PeerId, Profile)>,
    providerHeartbeats: seq<PeerId>,
    removed: seq<OfferRemoved>,
    updated: seq<OfferUpdated>)

  const NO_EVENTS := Events([], [], [], [])

  datatype Outcome = Accepted(events: Events) | OutdatedHeartbeat | ProviderClockWentBack

  // -------------------------------------------------------------- specification

  ghost predicate Offered(offers: Nested<Text>, t: Triple, payload: Text) {
    Get(offers, t.protocol, t.offer) == Some(payload)
  }

  // The active rows of `source` are exactly `offers`, payloads included.
  ghost predicate ActiveExactly(rows: Rows, source: PeerId, offers: Nested<Text>) {
    && (forall i | i in rows && rows[i].active && rows[i].triple.provider == source ::
          Offered(offers, rows[i].triple, rows[i].payload))
    && (forall p, o | Has(offers, p, o) :: HasActive(rows, Triple(source, p, o)))
  }

  ghost predicate WasRemoved(before: Rows, after: Rows, source: PeerId, e: OfferRemoved) {
    && e.id in before && before[e.id].active && before[e.id].triple == e.triple
    && e.triple.provider == source
    && !HasActive(after, e.triple)
  }

  ghost predicate WasUpdated(before: Rows, after: Rows, source: PeerId, e: OfferUpdated) {
    && e.id in after && after[e.id] == Row(e.triple, e.payload, true)
    && e.triple.provider == source
    && !(e.id in before && before[e.id].active)
  }

  // The events are exactly the difference between the two active sets, each event once.
  ghost predicate ExactDelta(before: Rows, after: Rows, source: PeerId,
                             removed: seq<OfferRemoved>, updated: seq<OfferUpdated>) {
    && NoDuplicates(removed) && NoDuplicates(updated)
    && (forall e :: e in removed <==> WasRemoved(before, after, source, e))
    && (forall e :: e in updated <==> WasUpdated(before, after, source, e))
  }

  ghost predicate Reconciled(before: Rows, after: Rows, source: PeerId, offers: Nested<Text>,
                             removed: seq<OfferRemoved>, updated: seq<OfferUpdated>) {
    && Evolved(before, after, source)
    && ActiveExactly(after, source, offers)
    && ExactDelta(before, after, source, removed, updated)
  }

  datatype Verdict = Outdated | WentBack | NoProviderData | SameProvider | NewerProvider | UnknownProvider

  function Judge(peers: map<PeerId, PeerRow>, source: PeerId, heartbeat: Heartbeat): Verdict {
    if source !in peers then
      if heartbeat.provider.None? then NoProviderData else UnknownProvider
    else if peers[source].heartbeatAt.Some? && peers[source].heartbeatAt.value >= heartbeat.timestamp then
      Outdated
    else if heartbeat.provider.None? then
      NoProviderData
    else
      var stored := if peers[source].updatedAt.Some? then peers[source].updatedAt.value else TIME_ZERO;
      var incoming := heartbeat.provider.value.updatedAt;
      if incoming < stored then WentBack else if incoming == stored then SameProvider else NewerProvider
  }

  function PeerAfter(details: Details, timestamp: int): PeerRow {
    PeerRow(details.profile, Some(details.updatedAt), Some(timestamp))
  }

  // What one delivery may do to the two tables, and what it reports.
  ghost predicate Handled(peers: map<PeerId, PeerRow>, before: Rows,
                          peers': map<PeerId, PeerRow>, after: Rows,
                          source: PeerId, heartbeat: Heartbeat, outcome: Outcome) {
    match Judge(peers, source, heartbeat)
    case Outdated => peers' == peers && after == before && outcome == OutdatedHeartbeat
    case WentBack => peers' == peers && after == before && outcome == ProviderClockWentBack
    case NoProviderData => peers' == peers && after == before && outcome == Accepted(NO_EVENTS)
    case SameProvider =>
      && peers' == peers[source := peers[source].(heartbeatAt := Some(heartbeat.timestamp))]
      && after == before
      && outcome == Accepted(NO_EVENTS.(providerHeartbeats := [source]))
    case NewerProvider =>
      && peers' == peers[source := PeerAfter(heartbeat.provider.value, heartbeat.timestamp)]
      && outcome.Accepted?
      && outcome.events.providersUpdated == [(source, heartbeat.provider.value.profile)]
      && outcome.events.providerHeartbeats == []
      && Reconciled(before, after, source, heartbeat.provider.value.offers,
                    outcome.events.removed, outcome.events.updated)
    case UnknownProvider =>
      && peers' == peers[source := PeerAfter(heartbeat.provider.value, heartbeat.timestamp)]
      && outcome.Accepted?
      && outcome.events.providersUpdated == []
      && outcome.events.providerHeartbeats == []
      && Reconciled(before, after, source, heartbeat.provider.value.offers,
                    outcome.events.removed, outcome.events.updated)
  }

  // -------------------------------------------------- the state between two writes

  // `todo` holds the initially active rows of `source` that the scan has not reached.
  ghost predicate Midway(before: Rows, now: Rows, source: PeerId, offers: Nested<Text>, todo: set<int>,
                         removed: seq<OfferRemoved>, updated: seq<OfferUpdated>) {
    && Evolved(before, now, source)
    && (forall i | i in todo ::
          && i in before && before[i].active
          && i in now && now[i].active && now[i].triple.provider == source)
    // whatever else is active is what the heartbeat offers
    && (forall i | i in now && now[i].active && now[i].triple.provider == source && i !in todo ::
          Offered(offers, now[i].triple, now[i].payload))
    // a row disabled for its payload has been replaced
    && (forall i | i in before && before[i].active && !now[i].active ::
          Has(offers, before[i].triple.protocol, before[i].triple.offer) ==> HasActive(now, before[i].triple))
    && NoDuplicates(removed) && NoDuplicates(updated)
    && (forall e :: e in removed <==> Missing(before, now, source, offers, e))
    && (forall e :: e in updated <==> WasUpdated(before, now, source, e))
  }

  ghost predicate Missing(before: Rows, now: Rows, source: PeerId, offers: Nested<Text>, e: OfferRemoved) {
    && e.id in before && before[e.id].active && before[e.id].triple == e.triple
    && e.triple.provider == source
    && e.id in now && !now[e.id].active
    && !Has(offers, e.triple.protocol, e.triple.offer)
  }

  // Rows activated during the scan that its cursor may still yield.
  ghost predicate YieldableLate(rows: Rows, source: PeerId, todo: set<int>, late: set<int>) {
    forall i | i in late :: i !in todo && i in rows && rows[i].active && rows[i].triple.provider == source
  }

  lemma ScanStarts(rows: Rows, source: PeerId, offers: Nested<Text>, todo: set<int>)
    requires forall i :: i in todo <==> i in rows && rows[i].active && rows[i].triple.provider == source
    ensures Midway(rows, rows, source, offers, todo, [], [])
  {
  }

  lemma ScanKeeps(before: Rows, now: Rows, source: PeerId, offers: Nested<Text>, todo: set<int>,
                  removed: seq<OfferRemoved>, updated: seq<OfferUpdated>, id: int)
    requires Midway(before, now, source, offers, todo, removed, updated)
    requires id in now && Offered(offers, now[id].triple, now[id].payload)
    ensures Midway(before, now, source, offers, todo - {id}, removed, updated)
  {
  }

  lemma ScanDisables(before: Rows, now: Rows, source: PeerId, offers: Nested<Text>, todo: set<int>,
                     removed: seq<OfferRemoved>, updated: seq<OfferUpdated>, id: int)
    requires Midway(before, now, source, offers, todo, removed, updated)
    requires OneActive(now)
    requires id in todo && !Has(offers, now[id].triple.protocol, now[id].triple.offer)
    ensures Midway(before, now[id := now[id].(active := false)], source, offers, todo - {id},
                   removed + [OfferRemoved(id, now[id].triple)], updated)
  {
    var next := now[id := now[id].(active := false)];
    var event := OfferRemoved(id, now[id].triple);
    assert !Missing(before, now, source, offers, event);
    forall e
      ensures e in removed + [event] <==> Missing(before, next, source, offers, e)
    {
      if e.id != id {
        assert Missing(before, next, source, offers, e) <==> Missing(before, now, source, offers, e);
      }
    }
    forall e
      ensures e in updated <==> WasUpdated(before, next, source, e)
    {
      assert WasUpdated(before, next, source, e) <==> WasUpdated(before, now, source, e);
    }
    forall i | i in before && before[i].active && !next[i].active
      ensures Has(offers, before[i].triple.protocol, before[i].triple.offer) ==> HasActive(next, before[i].triple)
    {
      if i != id && Has(offers, before[i].triple.protocol, before[i].triple.offer) {
        var j :| j in now && now[j].active && now[j].triple == before[i].triple;
        assert j != id && next[j] == now[j];
      }
    }
  }

  // Row `enabled` of (t, payload) becomes active where the triple had no active row left.
  lemma Enables(before: Rows, now: Rows, next: Rows, source: PeerId, offers: Nested<Text>, todo: set<int>,
                removed: seq<OfferRemoved>, updated: seq<OfferUpdated>, t: Triple, payload: Text, enabled: int)
    requires Midway(before, now, source, offers, todo, removed, updated)
    requires t.provider == source && Offered(offers, t, payload)
    requires !HasActive(now, t)
    requires Activated(now, next, t, payload, enabled)
    requires enabled in before ==> !before[enabled].active
    ensures Midway(before, next, source, offers, todo, removed, updated + [OfferUpdated(enabled, t, payload)])
  {
    var event := OfferUpdated(enabled, t, payload);
    assert enabled in now ==> !now[enabled].active;
    assert !WasUpdated(before, now, source, event);
    forall e
      ensures e in removed <==> Missing(before, next, source, offers, e)
    {
      assert Missing(before, next, source, offers, e) <==> Missing(before, now, source, offers, e);
    }
    forall e
      ensures e in updated + [event] <==> WasUpdated(before, next, source, e)
    {
      if e.id != enabled {
        assert WasUpdated(before, next, source, e) <==> WasUpdated(before, now, source, e);
      }
    }
    forall i | i in before && before[i].active && !next[i].active
      ensures Has(offers, before[i].triple.protocol, before[i].triple.offer) ==> HasActive(next, before[i].triple)
    {
      if Has(offers, before[i].triple.protocol, before[i].triple.offer) {
        var j :| j in now && now[j].active && now[j].triple == before[i].triple;
        assert j in next && next[j].active && next[j].triple == before[i].triple;
      }
    }
  }

  // Row `enabled` takes over from row `id`, both of triple `t`.
  ghost predicate Replaced(now: Rows, next: Rows, t: Triple, payload: Text, id: int, enabled: int) {
    && id in now && now[id].active && now[id].triple == t && payload != now[id].payload
    && Activated(now[id := now[id].(active := false)], next, t, payload, enabled)
  }

  lemma ReplacementWasInactive(before: Rows, now: Rows, next: Rows, source: PeerId, t: Triple, payload: Text,
                               id: int, enabled: int)
    requires Evolved(before, now, source) && OneActive(before) && OneActive(now)
    requires Replaced(now, next, t, payload, id, enabled) && id in before && before[id].active
    ensures enabled != id
    ensures enabled in now ==> !now[enabled].active
    ensures enabled in before ==> !before[enabled].active
  {
  }

  lemma ReplacingReports(before: Rows, now: Rows, next: Rows, source: PeerId, offers: Nested<Text>, t: Triple,
                         payload: Text, id: int, enabled: int, removed: seq<OfferRemoved>, updated: seq<OfferUpdated>)
    requires Replaced(now, next, t, payload, id, enabled) && enabled != id && t.provider == source
    requires Has(offers, t.protocol, t.offer) && id in before && before[id].active && before[id].triple == t
    requires enabled in now ==> !now[enabled].active
    requires enabled in before ==> !before[enabled].active
    requires forall e :: e in removed <==> Missing(before, now, source, offers, e)
    requires forall e :: e in updated <==> WasUpdated(before, now, source, e)
    ensures OfferUpdated(enabled, t, payload) !in updated
    ensures forall e :: e in removed <==> Missing(before, next, source, offers, e)
    ensures forall e :: e in updated + [OfferUpdated(enabled, t, payload)] <==> WasUpdated(before, next, source, e)
  {
    var event := OfferUpdated(enabled, t, payload);
    assert !WasUpdated(before, now, source, event);
    forall e
      ensures e in removed <==> Missing(before, next, source, offers, e)
    {
      assert Missing(before, next, source, offers, e) <==> Missing(before, now, source, offers, e);
    }
    forall e
      ensures e in updated + [event] <==> WasUpdated(before, next, source, e)
    {
      if e.id != enabled {
        assert WasUpdated(before, next, source, e) <==> WasUpdated(before, now, source, e);
      }
    }
  }

  lemma ReplacingKeepsActive(now: Rows, next: Rows, t: Triple, payload: Text, id: int, enabled: int, u: Triple)
    requires Replaced(now, next, t, payload, id, enabled) && enabled != id && (HasActive(now, u) || u == t)
    ensures HasActive(next, u)
  {
    assert next[enabled].active && next[enabled].triple == t;
    if u != t {
      var j :| j in now && now[j].active && now[j].triple == u;
      assert j in next && next[j].active && next[j].triple == u;
    }
  }

  // The state after disabling a row for its payload and before enabling its replacement
  // is not `Midway`, so both writes are taken together.
  lemma ScanReplaces(before: Rows, now: Rows, next: Rows, source: PeerId, offers: Nested<Text>, todo: set<int>,
                     removed: seq<OfferRemoved>, updated: seq<OfferUpdated>, id: int, payload: Text, enabled: int)
    requires Midway(before, now, source, offers, todo, removed, updated)
    requires OneActive(before) && OneActive(now)
    requires id in todo && payload != now[id].payload && Offered(offers, now[id].triple, payload)
    requires Activated(now[id := now[id].(active := false)], next, now[id].triple, payload, enabled)
    ensures enabled in before ==> !before[enabled].active
    ensures enabled !in todo
    ensures Midway(before, next, source, offers, todo - {id}, removed,
                   updated + [OfferUpdated(enabled, now[id].triple, payload)])
  {
    var t := now[id].triple;
    ReplacementWasInactive(before, now, next, source, t, payload, id, enabled);
    ReplacingReports(before, now, next, source, offers, t, payload, id, enabled, removed, updated);
    forall i | i in before && before[i].active && !next[i].active
      ensures Has(offers, before[i].triple.protocol, before[i].triple.offer) ==> HasActive(next, before[i].triple)
    {
      if Has(offers, before[i].triple.protocol, before[i].triple.offer) {
        ReplacingKeepsActive(now, next, t, payload, id, enabled, before[i].triple);
      }
    }
  }

  // A row that the scan disabled and the heartbeat still offers has an active successor,
  // so a row enabled in the second phase was not active before.
  lemma EnabledWasInactive(before: Rows, now: Rows, source: PeerId, offers: Nested<Text>,
                           removed: seq<OfferRemoved>, updated: seq<OfferUpdated>, t: Triple, id: int)
    requires Midway(before, now, source, offers, {}, removed, updated)
    requires Has(offers, t.protocol, t.offer) && !HasActive(now, t)
    requires id in now ==> now[id].triple == t
    ensures id in before ==> !before[id].active
  {
  }

  lemma Finishes(before: Rows, now: Rows, source: PeerId, offers: Nested<Text>,
                 removed: seq<OfferRemoved>, updated: seq<OfferUpdated>)
    requires Midway(before, now, source, offers, {}, removed, updated)
    requires OneActive(before)
    requires forall p, o | Has(offers, p, o) :: HasActive(now, Triple(source, p, o))
    ensures Reconciled(before, now, source, offers, removed, updated)
  {
  }

  // The smallest delivery: one offer of a peer unknown until then, to empty tables.
  lemma FirstOffer(t: Triple, payload: Text, profile: Profile, updatedAt: int, timestamp: int)
    returns (heartbeat: Heartbeat, peers': map<PeerId, PeerRow>, after: Rows, outcome: Outcome)
    ensures heartbeat ==
      Heartbeat(Some(Details(profile, map[t.protocol := map[t.offer := payload]], updatedAt)), timestamp)
    ensures after == map[1 := Row(t, payload, true)]
    ensures outcome == Accepted(Events([], [], [], [OfferUpdated(1, t, payload)]))
    ensures Handled(map[], map[], peers', after, t.provider, heartbeat, outcome)
  {
    var details := Details(profile, map[t.protocol := map[t.offer := payload]], updatedAt);
    var updated := [OfferUpdated(1, t, payload)];
    heartbeat := Heartbeat(Some(details), timestamp);
    peers' := map[t.provider := PeerAfter(details, timestamp)];
    after := map[1 := Row(t, payload, true)];
    outcome := Accepted(Events([], [], [], updated));
    assert after[1].active && after[1].triple == t;
    forall e
      ensures e in updated <==> WasUpdated(map[], after, t.provider, e)
    {
    }
  }

  // ------------------------------------------------------------------- the code

  // The cursor yields any row it has not yielded yet.
  method NextVisited(todo: set<int>, late: set<int>) returns (id: int)
    requires todo != {} || late != {}
    ensures id in todo || id in late
  {
    if
    case todo != {} => id := Pick(todo);
    case late != {} => id := Pick(late);
  }

  // Disable an active row and enable the row of its triple with the new payload.
  method Supersede(db: Database, id: int, payload: Text) returns (enabled: int)
    requires db.Valid() && id in db.snapshots && db.snapshots[id].active && payload != db.snapshots[id].payload
    modifies db`snapshots, db`nextRowid
    ensures db.Valid()
    ensures Activated(old(db.snapshots)[id := old(db.snapshots)[id].(active := false)],
                      db.snapshots, old(db.snapshots)[id].triple, payload, enabled)
  {
    var t := db.snapshots[id].triple;
    db.Deactivate(id);
    var r := db.UpsertByPayload(t, payload);
    assert r.Done?;
    enabled := r.id;
  }

  // One turn of the phase 1 loop, on a row the cursor has yielded.
  method Visit(db: Database, source: PeerId, offers: Nested<Text>, id: int,
               removed0: seq<OfferRemoved>, updated0: seq<OfferUpdated>,
               ghost before: Rows, ghost todo: set<int>)
    returns (removed: seq<OfferRemoved>, updated: seq<OfferUpdated>, activated: Option<int>)
    requires db.Valid() && OneActive(before)
    requires Midway(before, db.snapshots, source, offers, todo, removed0, updated0)
    requires id in db.snapshots && db.snapshots[id].active && db.snapshots[id].triple.provider == source
    modifies db`snapshots, db`nextRowid
    ensures db.Valid()
    ensures Midway(before, db.snapshots, source, offers, todo - {id}, removed, updated)
    ensures forall late | YieldableLate(old(db.snapshots), source, todo, late) ::
        YieldableLate(db.snapshots, source, todo - {id}, late - {id} + (if activated.Some? then {activated.value} else {}))
    ensures activated.Some? ==> id in todo
  {
    removed, updated, activated := removed0, updated0, None;
    ghost var now := db.snapshots;
    assert id !in todo ==> Offered(offers, now[id].triple, now[id].payload);
    var row := db.snapshots[id];
    match Get(offers, row.triple.protocol, row.triple.offer)
    case Some(payload) =>
      if payload == row.payload {
        ScanKeeps(before, now, source, offers, todo, removed, updated, id);
      } else {
        var enabled := Supersede(db, id, payload);
        ScanReplaces(before, now, db.snapshots, source, offers, todo, removed, updated, id, payload, enabled);
        updated := updated + [OfferUpdated(enabled, row.triple, payload)];
        activated := Some(enabled);
      }
    case None =>
      db.Deactivate(id);
      ScanDisables(before, now, source, offers, todo, removed, updated, id);
      removed := removed + [OfferRemoved(id, row.triple)];
  }

  // Phase 1: visit the active rows of `source`. The scan reads the table it writes, so it
  // may or may not come across rows that were activated after it started (`late`), and it
  // visits rows in no particular order.
  method DisableStale(db: Database, source: PeerId, offers: Nested<Text>)
    returns (removed: seq<OfferRemoved>, updated: seq<OfferUpdated>)
    requires db.Valid() && source in db.peers
    modifies db`snapshots, db`nextRowid
    ensures db.Valid()
    ensures Midway(old(db.snapshots), db.snapshots, source, offers, {}, removed, updated)
  {
    removed, updated := [], [];
    ghost var before := db.snapshots;
    var todo := set i | i in db.snapshots && db.snapshots[i].active && db.snapshots[i].triple.provider == source;
    var late: set<int> := {};
    ScanStarts(before, source, offers, todo);
    while todo != {} || late != {}
      invariant db.Valid()
      invariant Midway(before, db.snapshots, source, offers, todo, removed, updated)
      invariant YieldableLate(db.snapshots, source, todo, late)
      decreases todo, late
    {
      var id := NextVisited(todo, late);
      ghost var unread, unreadLate := todo - {id}, late - {id};
      assert if id in todo then unread < todo else unread == todo && unreadLate < late;
      var activated: Option<int>;
      removed, updated, activated := Visit(db, source, offers, id, removed, updated, before, todo);
      todo, late := todo - {id}, late - {id};
      if activated.Some? {
        if * {
          late := late + {activated.value};
        }
      }
    }
  }

  // Phase 2: enable whatever is offered and has no active row yet.
  method EnableMissing(db: Database, source: PeerId, offers: Nested<Text>,
                       ghost before: Rows, ghost removed: seq<OfferRemoved>, updated0: seq<OfferUpdated>)
    returns (updated: seq<OfferUpdated>)
    requires db.Valid() && source in db.peers && OneActive(before)
    requires Midway(before, db.snapshots, source, offers, {}, removed, updated0)
    modifies db`snapshots, db`nextRowid
    ensures db.Valid()
    ensures Reconciled(before, db.snapshots, source, offers, removed, updated)
  {
    updated := updated0;
    var protocols := offers.Keys;
    while protocols != {}
      invariant db.Valid() && protocols <= offers.Keys
      invariant Midway(before, db.snapshots, source, offers, {}, removed, updated)
      invariant forall p, o | Has(offers, p, o) && p !in protocols :: HasActive(db.snapshots, Triple(source, p, o))
    {
      var p := Pick(protocols);
      protocols := protocols - {p};
      var ids := offers[p].Keys;
      while ids != {}
        invariant db.Valid() && ids <= offers[p].Keys
        invariant Midway(before, db.snapshots, source, offers, {}, removed, updated)
        invariant forall q, o | Has(offers, q, o) && q !in protocols && (q == p ==> o !in ids) ::
            HasActive(db.snapshots, Triple(source, q, o))
      {
        var o := Pick(ids);
        ids := ids - {o};
        ghost var now := db.snapshots;
        var t := Triple(source, p, o);
        if i :| i in db.snapshots && db.snapshots[i].triple == t && db.snapshots[i].active {
        } else {
          var r := db.UpsertUntargeted(t, offers[p][o]);
          assert r.Done?;
          EnabledWasInactive(before, now, source, offers, removed, updated, t, r.id);
          Enables(before, now, db.snapshots, source, offers, {}, removed, updated, t, offers[p][o], r.id);
          updated := updated + [OfferUpdated(r.id, t, offers[p][o])];
          StillActive(now, db.snapshots, t, offers[p][o], r.id);
        }
      }
    }
    Finishes(before, db.snapshots, source, offers, removed, updated);
  }

  lemma StillActive(now: Rows, next: Rows, t: Triple, payload: Text, id: int)
    requires Activated(now, next, t, payload, id)
    ensures HasActive(next, t)
    ensures forall u :: HasActive(now, u) ==> HasActive(next, u)
  {
    assert next[id].active && next[id].triple == t;
    forall u | HasActive(now, u)
      ensures HasActive(next, u)
    {
      var i :| i in now && now[i].active && now[i].triple == u;
      assert i in next && next[i].active && next[i].triple == u;
    }
  }

  // The pairs that the nested loop has yet to insert.
  predicate Pending(protocols: set<Text>, p: Text, ids: set<Text>, q: Text, o: Text) {
    q in protocols || (q == p && o in ids)
  }

  // Exactly the offered pairs that are not pending have rows of `source`.
  ghost predicate Inserted(rows: Rows, source: PeerId, offers: Nested<Text>, protocols: set<Text>, p: Text, ids: set<Text>) {
    && (forall q, o | Has(offers, q, o) :: Pending(protocols, p, ids, q, o) || HasActive(rows, Triple(source, q, o)))
    && (forall i | i in rows && rows[i].triple.provider == source ::
          !Pending(protocols, p, ids, rows[i].triple.protocol, rows[i].triple.offer))
  }

  lemma InsertingOffer(now: Rows, next: Rows, source: PeerId, offers: Nested<Text>, protocols: set<Text>,
                       p: Text, ids: set<Text>, o: Text, payload: Text, id: int)
    requires Inserted(now, source, offers, protocols, p, ids) && p !in protocols && o in ids
    requires id !in now && Activated(now, next, Triple(source, p, o), payload, id)
    ensures Inserted(next, source, offers, protocols, p, ids - {o})
  {
    StillActive(now, next, Triple(source, p, o), payload, id);
  }

  // One turn of the inner loop: a plain insert, which no row of the peer obstructs.
  method InsertOffer(db: Database, source: PeerId, offers: Nested<Text>, p: Text, o: Text, updated0: seq<OfferUpdated>,
                     ghost before: Rows, ghost protocols: set<Text>, ghost ids: set<Text>)
    returns (updated: seq<OfferUpdated>)
    requires db.Valid() && source in db.peers && Has(offers, p, o) && p !in protocols && o in ids
    requires forall i | i in before :: before[i].triple.provider != source
    requires Midway(before, db.snapshots, source, offers, {}, [], updated0)
    requires Inserted(db.snapshots, source, offers, protocols, p, ids)
    modifies db`snapshots, db`nextRowid
    ensures db.Valid() && Midway(before, db.snapshots, source, offers, {}, [], updated)
    ensures Inserted(db.snapshots, source, offers, protocols, p, ids - {o})
  {
    ghost var now := db.snapshots;
    var t := Triple(source, p, o);
    assert forall i | i in now :: now[i].triple != t;
    var r := db.Insert(t, offers[p][o]);
    assert r.Done?;
    Enables(before, now, db.snapshots, source, offers, {}, [], updated0, t, offers[p][o], r.id);
    InsertingOffer(now, db.snapshots, source, offers, protocols, p, ids, o, offers[p][o], r.id);
    updated := updated0 + [OfferUpdated(r.id, t, offers[p][o])];
  }

  // The branch for an unknown peer.
  method InsertAll(db: Database, source: PeerId, offers: Nested<Text>) returns (updated: seq<OfferUpdated>)
    requires db.Valid() && source in db.peers
    requires forall i | i in db.snapshots :: db.snapshots[i].triple.provider != source
    modifies db`snapshots, db`nextRowid
    ensures db.Valid()
    ensures Reconciled(old(db.snapshots), db.snapshots, source, offers, [], updated)
  {
    updated := [];
    ghost var before := db.snapshots;
    ScanStarts(before, source, offers, {});
    var protocols := offers.Keys;
    while protocols != {}
      invariant db.Valid() && protocols <= offers.Keys
      invariant Midway(before, db.snapshots, source, offers, {}, [], updated)
      invariant Inserted(db.snapshots, source, offers, protocols, [], {})
    {
      var p := Pick(protocols);
      var ids := offers[p].Keys;
      NextProtocol(db.snapshots, source, offers, protocols, p);
      protocols := protocols - {p};
      while ids != {}
        invariant db.Valid() && ids <= offers[p].Keys
        invariant Midway(before, db.snapshots, source, offers, {}, [], updated)
        invariant Inserted(db.snapshots, source, offers, protocols, p, ids)
      {
        var o := Pick(ids);
        updated := InsertOffer(db, source, offers, p, o, updated, before, protocols, ids);
        ids := ids - {o};
      }
      ProtocolDone(db.snapshots, source, offers, protocols, p);
    }
    Finishes(before, db.snapshots, source, offers, [], updated);
  }

  lemma NextProtocol(rows: Rows, source: PeerId, offers: Nested<Text>, protocols: set<Text>, p: Text)
    requires Inserted(rows, source, offers, protocols, [], {}) && p in protocols && p in offers
    ensures Inserted(rows, source, offers, protocols - {p}, p, offers[p].Keys)
  {
  }

  lemma ProtocolDone(rows: Rows, source: PeerId, offers: Nested<Text>, protocols: set<Text>, p: Text)
    requires Inserted(rows, source, offers, protocols, p, {})
    ensures Inserted(rows, source, offers, protocols, [], {})
  {
  }

  method HandleHeartbeat(db: Database, source: PeerId, heartbeat: Heartbeat) returns (outcome: Outcome)
    requires db.Valid()
    modifies db
    ensures db.Valid()
    ensures Handled(old(db.peers), old(db.snapshots), db.peers, db.snapshots, source, heartbeat, outcome)
  {
    if source in db.peers {
      var peer := db.peers[source];
      if peer.heartbeatAt.Some? && peer.heartbeatAt.value >= heartbeat.timestamp {
        return OutdatedHeartbeat;
      }
      if heartbeat.provider.None? {
        return Accepted(NO_EVENTS);
      }
      var details := heartbeat.provider.value;
      var stored := if peer.updatedAt.Some? then peer.updatedAt.value else TIME_ZERO;
      if details.updatedAt < stored {
        return ProviderClockWentBack;
      } else if details.updatedAt == stored {
        db.peers := db.peers[source := peer.(heartbeatAt := Some(heartbeat.timestamp))];
        return Accepted(Events([], [source], [], []));
      } else {
        ghost var before := db.snapshots;
        db.peers := db.peers[source := PeerAfter(details, heartbeat.timestamp)];
        var removed, updated := DisableStale(db, source, details.offers);
        updated := EnableMissing(db, source, details.offers, before, removed, updated);
        return Accepted(Events([(source, details.profile)], [], removed, updated));
      }
    } else if heartbeat.provider.Some? {
      var details := heartbeat.provider.value;
      db.peers := db.peers[source := PeerAfter(details, heartbeat.timestamp)];
      var updated := InsertAll(db, source, details.offers);
      return Accepted(Events([], [], [], updated));
    } else {
      return Accepted(NO_EVENTS);
    }
  }
}
