/**
 The provider registry: which RPC connection provides which offer. The modules'
 own offer maps and `offers_module_map` are exact inverses of each other, and
 the heartbeat's offers are read off the former.
 */
module Registry {
  import opened Base
  import opened Nested
  import opened Snapshots

  datatype ProvidedOffer = ProvidedOffer(snapshotRowid: int, payload: Text)

  type ModuleOffers = Nested<ProvidedOffer>

  datatype FoundOffer = FoundOffer(moduleId: nat, provided: ProvidedOffer)

  // `connections` gives each open RPC connection the module id it holds, if any.
  // Clocks are in nanoseconds.
  datatype State = State(
    moduleIdsCounter: nat,
    modules: map<nat, ModuleOffers>,
    offersModuleMap: Nested<nat>,
    connections: map<nat, Option<nat>>,
    lastUpdatedAt: int)

  // -------------------------------------------------------------- invariant

  // `offers_module_map[p][o] = m` exactly when module m offers (p, o).
  ghost predicate Inverse(s: State) {
    && (forall p, o | Has(s.offersModuleMap, p, o) ::
          At(s.offersModuleMap, p, o) in s.modules && Has(s.modules[At(s.offersModuleMap, p, o)], p, o))
    && (forall m, p, o | m in s.modules && Has(s.modules[m], p, o) :: Get(s.offersModuleMap, p, o) == Some(m))
  }

  ghost predicate Tidy(s: State) {
    && NoEmptyInner(s.offersModuleMap)
    && (forall m | m in s.modules :: NoEmptyInner(s.modules[m]) && s.modules[m].Keys != {})
  }

  // Module ids are fresh, and each module belongs to exactly one open connection.
  ghost predicate Owned(s: State) {
    && (forall m | m in s.modules :: m < s.moduleIdsCounter)
    && (forall c | c in s.connections && s.connections[c].Some? :: s.connections[c].value in s.modules)
    && (forall c, d | c in s.connections && d in s.connections ::
          s.connections[c].Some? && s.connections[c] == s.connections[d] ==> c == d)
    && (forall m | m in s.modules :: exists c :: c in s.connections && s.connections[c] == Some(m))
  }

  ghost predicate Synced(s: State) {
    Inverse(s) && Tidy(s) && Owned(s)
  }

  // ---------------------------------------------------------- specification

  const FRESH := State(0, map[], map[], map[], 0)

  // A node that starts again has an empty registry and the time of its start as its clock.
  function Restarted(now: int): State {
    FRESH.(lastUpdatedAt := now)
  }

  function Open(s: State, c: nat): State {
    if c in s.connections then s else s.(connections := s.connections[c := None])
  }

  function ModuleFor(s: State, c: nat): nat
    requires c in s.connections
  {
    if s.connections[c].Some? then s.connections[c].value else s.moduleIdsCounter
  }

  function Provided(s: State, c: nat, p: Text, o: Text, offer: ProvidedOffer, now: int): State
    requires c in s.connections
  {
    if Has(s.offersModuleMap, p, o) then s
    else
      var m := ModuleFor(s, c);
      State(if s.connections[c].Some? then s.moduleIdsCounter else s.moduleIdsCounter + 1,
            s.modules[m := Put(if m in s.modules then s.modules[m] else map[], p, o, offer)],
            Put(s.offersModuleMap, p, o, m),
            s.connections[c := Some(m)],
            now)
  }

  // The entries of other modules, without the protocols that have none.
  ghost function Without(mm: Nested<nat>, m: nat): Nested<nat> {
    map p | p in mm && (exists o :: o in mm[p] && mm[p][o] != m) ::
      map o | o in mm[p] && mm[p][o] != m :: mm[p][o]
  }

  ghost function Closed(s: State, c: nat, now: int): State
    requires c in s.connections
  {
    if s.connections[c].None? then s.(connections := s.connections - {c})
    else
      var m := s.connections[c].value;
      s.(modules := s.modules - {m}, offersModuleMap := Without(s.offersModuleMap, m),
         connections := s.connections - {c}, lastUpdatedAt := now)
  }

  lemma WithoutLookups(mm: Nested<nat>, m: nat)
    ensures forall p, o :: Get(Without(mm, m), p, o) == if Get(mm, p, o) == Some(m) then None else Get(mm, p, o)
    ensures NoEmptyInner(Without(mm, m))
  {
    forall p | p in Without(mm, m)
      ensures Without(mm, m)[p].Keys != {}
    {
      var o :| o in mm[p] && mm[p][o] != m;
      assert o in Without(mm, m)[p];
    }
  }

  lemma PutLookups<V>(m: Nested<V>, p: Text, o: Text, v: V)
    ensures forall q, r :: Get(Put(m, p, o, v), q, r) == if q == p && r == o then Some(v) else Get(m, q, r)
    ensures NoEmptyInner(m) ==> NoEmptyInner(Put(m, p, o, v))
  {
    assert o in Put(m, p, o, v)[p].Keys;
  }

  lemma ProvidingKeepsInverse(s: State, c: nat, p: Text, o: Text, offer: ProvidedOffer, now: int)
    requires Synced(s) && c in s.connections && !Has(s.offersModuleMap, p, o)
    ensures Inverse(Provided(s, c, p, o, offer, now))
  {
    var s', m := Provided(s, c, p, o, offer, now), ModuleFor(s, c);
    var previous := if m in s.modules then s.modules[m] else map[];
    PutLookups(s.offersModuleMap, p, o, m);
    PutLookups(previous, p, o, offer);
    forall q, r | Has(s'.offersModuleMap, q, r)
      ensures At(s'.offersModuleMap, q, r) in s'.modules && Has(s'.modules[At(s'.offersModuleMap, q, r)], q, r)
    {
      assert Get(s'.offersModuleMap, q, r) == Some(At(s'.offersModuleMap, q, r));
      if !(q == p && r == o) {
        assert Get(s.offersModuleMap, q, r) == Get(s'.offersModuleMap, q, r);
        assert Has(s.offersModuleMap, q, r);
        var n := At(s.offersModuleMap, q, r);
        assert n == m ==> Get(s'.modules[m], q, r) == Get(previous, q, r);
      } else {
        assert Get(s'.modules[m], p, o) == Some(offer);
      }
    }
    forall n, q, r | n in s'.modules && Has(s'.modules[n], q, r)
      ensures Get(s'.offersModuleMap, q, r) == Some(n)
    {
      if n == m {
        assert Get(s'.modules[m], q, r).Some?;
        if !(q == p && r == o) {
          assert Get(previous, q, r).Some?;
        }
      } else {
        assert Get(s.offersModuleMap, q, r) == Some(n);
      }
    }
  }

  lemma ProvidingKeepsTidy(s: State, c: nat, p: Text, o: Text, offer: ProvidedOffer, now: int)
    requires Tidy(s) && c in s.connections && !Has(s.offersModuleMap, p, o)
    ensures Tidy(Provided(s, c, p, o, offer, now))
  {
    var m := ModuleFor(s, c);
    var previous := if m in s.modules then s.modules[m] else map[];
    PutLookups(s.offersModuleMap, p, o, m);
    PutLookups(previous, p, o, offer);
    assert p in Put(previous, p, o, offer).Keys;
  }

  lemma ProvidingKeepsOwned(s: State, c: nat, p: Text, o: Text, offer: ProvidedOffer, now: int)
    requires Owned(s) && c in s.connections && !Has(s.offersModuleMap, p, o)
    ensures Owned(Provided(s, c, p, o, offer, now))
  {
    var s', m := Provided(s, c, p, o, offer, now), ModuleFor(s, c);
    forall n | n in s'.modules
      ensures exists d :: d in s'.connections && s'.connections[d] == Some(n)
    {
      if n == m {
        assert s'.connections[c] == Some(m);
      } else {
        var d :| d in s.connections && s.connections[d] == Some(n);
        assert s'.connections[d] == Some(n);
      }
    }
  }

  lemma ProvidingKeepsSync(s: State, c: nat, p: Text, o: Text, offer: ProvidedOffer, now: int)
    requires Synced(s) && c in s.connections
    ensures Synced(Provided(s, c, p, o, offer, now))
  {
    if !Has(s.offersModuleMap, p, o) {
      ProvidingKeepsInverse(s, c, p, o, offer, now);
      ProvidingKeepsTidy(s, c, p, o, offer, now);
      ProvidingKeepsOwned(s, c, p, o, offer, now);
    }
  }

  // `unwrap_none` on both insertions, and `unwrap` on the module of the connection.
  lemma NewOfferIsNew(s: State, c: nat, p: Text, o: Text)
    requires Synced(s) && c in s.connections && !Has(s.offersModuleMap, p, o)
    ensures s.connections[c].Some? <==> ModuleFor(s, c) in s.modules
    ensures ModuleFor(s, c) in s.modules ==> !Has(s.modules[ModuleFor(s, c)], p, o)
  {
    if ModuleFor(s, c) in s.modules {
      OfferedByIff(s, ModuleFor(s, c), p, o);
    }
  }

  lemma ClosingKeepsInverse(s: State, c: nat, now: int)
    requires Inverse(s) && c in s.connections
    ensures Inverse(Closed(s, c, now))
  {
    var s' := Closed(s, c, now);
    if s.connections[c].Some? {
      var m := s.connections[c].value;
      WithoutLookups(s.offersModuleMap, m);
      forall q, r | Has(s'.offersModuleMap, q, r)
        ensures At(s'.offersModuleMap, q, r) in s'.modules && Has(s'.modules[At(s'.offersModuleMap, q, r)], q, r)
      {
        assert Get(s'.offersModuleMap, q, r) == Get(s.offersModuleMap, q, r) != Some(m);
        assert Has(s.offersModuleMap, q, r);
      }
      forall n, q, r | n in s'.modules && Has(s'.modules[n], q, r)
        ensures Get(s'.offersModuleMap, q, r) == Some(n)
      {
        assert Get(s.offersModuleMap, q, r) == Some(n);
      }
    }
  }

  lemma ClosingKeepsSync(s: State, c: nat, now: int)
    requires Synced(s) && c in s.connections
    ensures Synced(Closed(s, c, now))
  {
    var s' := Closed(s, c, now);
    ClosingKeepsInverse(s, c, now);
    if s.connections[c].Some? {
      WithoutLookups(s.offersModuleMap, s.connections[c].value);
    }
    forall n | n in s'.modules
      ensures exists d :: d in s'.connections && s'.connections[d] == Some(n)
    {
      var d :| d in s.connections && s.connections[d] == Some(n);
      assert d in s'.connections && s'.connections[d] == Some(n);
    }
  }

  // --------------------------------------------------------------- whole runs

  datatype Step =
    | OpenStep(c: nat)
    | ProvideStep(c: nat, p: Text, o: Text, offer: ProvidedOffer)
    | CloseStep(c: nat)

  // A step on a connection that is not open does not happen.
  ghost function Next(s: State, step: Step, now: int): State {
    match step
    case OpenStep(c) => Open(s, c)
    case ProvideStep(c, p, o, offer) => if c in s.connections then Provided(s, c, p, o, offer, now) else s
    case CloseStep(c) => if c in s.connections then Closed(s, c, now) else s
  }

  ghost function After(steps: seq<(Step, int)>): State {
    if steps == [] then FRESH
    else Next(After(steps[..|steps| - 1]), steps[|steps| - 1].0, steps[|steps| - 1].1)
  }

  lemma OpeningKeepsSync(s: State, c: nat)
    requires Owned(s)
    ensures Owned(Open(s, c))
  {
    forall m | m in s.modules
      ensures exists d :: d in Open(s, c).connections && Open(s, c).connections[d] == Some(m)
    {
      var d :| d in s.connections && s.connections[d] == Some(m);
      assert Open(s, c).connections[d] == Some(m);
    }
  }

  lemma StepKeepsSync(s: State, step: Step, now: int)
    requires Synced(s)
    ensures Synced(Next(s, step, now))
  {
    match step
    case OpenStep(c) => OpeningKeepsSync(s, c);
    case ProvideStep(c, p, o, offer) =>
      if c in s.connections {
        ProvidingKeepsSync(s, c, p, o, offer, now);
      }
    case CloseStep(c) =>
      if c in s.connections {
        ClosingKeepsSync(s, c, now);
      }
  }

  lemma {:induction false} AlwaysSynced(steps: seq<(Step, int)>)
    ensures Synced(After(steps))
  {
    if steps != [] {
      AlwaysSynced(steps[..|steps| - 1]);
      StepKeepsSync(After(steps[..|steps| - 1]), steps[|steps| - 1].0, steps[|steps| - 1].1);
    }
  }

  // ------------------------------------------------------------------ look-ups

  // The indexing below is where the code says `unwrap` and `expect`.
  function FindOffer(s: State, p: Text, o: Text): (found: Option<FoundOffer>)
    requires Synced(s)
    ensures found.Some? <==> exists m :: m in s.modules && Has(s.modules[m], p, o)
    ensures found.Some? ==>
      found.value.moduleId in s.modules && Get(s.modules[found.value.moduleId], p, o) == Some(found.value.provided)
  {
    if p in s.offersModuleMap then
      if o in s.offersModuleMap[p] then
        assert Has(s.offersModuleMap, p, o);
        var m := s.offersModuleMap[p][o];
        assert m == At(s.offersModuleMap, p, o);
        Some(FoundOffer(m, s.modules[m][p][o]))
      else
        UnlistedIsUnoffered(s, p, o);
        None
    else
      UnlistedIsUnoffered(s, p, o);
      None
  }

  // The payload that the module named by `offers_module_map` records.
  ghost function ListedPayload(s: State, p: Text, o: Text): Text {
    var m := Get(s.offersModuleMap, p, o);
    if m.Some? && m.value in s.modules && Has(s.modules[m.value], p, o)
    then At(s.modules[m.value], p, o).payload
    else []
  }

  ghost function HeartbeatOffers(s: State): Nested<Text> {
    map p | p in s.offersModuleMap ::
      map o | o in s.offersModuleMap[p] :: ListedPayload(s, p, o)
  }

  // A provide adds exactly one offer, to the connection's module and under its id, and sets the clock.
  lemma ProvidingAddsOne(s: State, c: nat, p: Text, o: Text, offer: ProvidedOffer, now: int)
    requires Owned(s) && c in s.connections && !Has(s.offersModuleMap, p, o)
    ensures var s' := Provided(s, c, p, o, offer, now);
      && s'.lastUpdatedAt == now
      && c in s'.connections && s'.connections[c].Some? && s'.connections == s.connections[c := s'.connections[c]]
      && var m := s'.connections[c].value;
      && (if s.connections[c].Some? then Some(m) == s.connections[c] else m !in s.modules)
      && m in s'.modules && Get(s'.modules[m], p, o) == Some(offer) && Get(s'.offersModuleMap, p, o) == Some(m)
      && (forall q, r | q != p || r != o :: Get(s'.offersModuleMap, q, r) == Get(s.offersModuleMap, q, r))
      && s'.modules.Keys == s.modules.Keys + {m}
      && (forall n | n in s.modules && n != m :: s'.modules[n] == s.modules[n])
      && (forall q, r | q != p || r != o ::
            Get(s'.modules[m], q, r) == if m in s.modules then Get(s.modules[m], q, r) else None)
  {
    var m := ModuleFor(s, c);
    PutLookups(s.offersModuleMap, p, o, m);
    PutLookups(if m in s.modules then s.modules[m] else map[], p, o, offer);
  }

  // A disconnect hides exactly the offers of the connection's module and sets the clock, and one of a
  // connection without a module changes nothing else.
  lemma ClosingRemovesExactly(s: State, c: nat, now: int)
    requires Synced(s) && c in s.connections
    ensures var s' := Closed(s, c, now);
      && Synced(s') && s'.connections == s.connections - {c}
      && s'.lastUpdatedAt == (if s.connections[c].Some? then now else s.lastUpdatedAt)
      && forall p, o :: FindOffer(s', p, o) ==
           if FindOffer(s, p, o).Some? && s.connections[c] == Some(FindOffer(s, p, o).value.moduleId) then None
           else FindOffer(s, p, o)
  {
    var s' := Closed(s, c, now);
    ClosingKeepsSync(s, c, now);
    if s.connections[c].Some? {
      WithoutLookups(s.offersModuleMap, s.connections[c].value);
    }
    forall p, o
      ensures FindOffer(s', p, o) ==
        if FindOffer(s, p, o).Some? && s.connections[c] == Some(FindOffer(s, p, o).value.moduleId) then None
        else FindOffer(s, p, o)
    {
      FindOfferLooksUp(s, p, o);
      FindOfferLooksUp(s', p, o);
    }
  }

  lemma FindOfferLooksUp(s: State, p: Text, o: Text)
    requires Synced(s)
    ensures FindOffer(s, p, o).Some? <==> Get(s.offersModuleMap, p, o).Some?
    ensures FindOffer(s, p, o).Some? ==>
      var m := FindOffer(s, p, o).value.moduleId;
      && Get(s.offersModuleMap, p, o) == Some(m) && m in s.modules
      && Get(s.modules[m], p, o) == Some(FindOffer(s, p, o).value.provided)
  {
  }

  // ------------------------------------------------------------------ the code

  // What `offers::upsert` leaves behind for one of the node's own offers.
  ghost predicate Upserted(before: Rows, after: Rows, t: Triple, payload: Text, id: int) {
    && id in after && after[id].active && after[id].triple == t
    && (HasActive(before, t) ==> after == before)
    && (!HasActive(before, t) ==> Activated(before, after, t, payload, id))
  }

  // The node's own rows are never disabled: heartbeats only touch their sender's rows.
  ghost predicate OwnRowsActive(rows: Rows, own: PeerId) {
    forall i | i in rows && rows[i].triple.provider == own :: rows[i].active
  }

  // A transaction: the peer row of a failed upsert is rolled back. It can fail only where an
  // inactive row has the payload and another row of the triple is active.
  method Upsert(db: Database, own: PeerId, offer: Text, protocol: Text, payload: Text) returns (r: SqlResult)
    requires db.Valid()
    modifies db
    ensures db.Valid()
    ensures r.Done? ==>
      && db.peers == (if own in old(db.peers) then old(db.peers) else old(db.peers)[own := BARE_PEER])
      && Evolved(old(db.snapshots), db.snapshots, own)
      && Upserted(old(db.snapshots), db.snapshots, Triple(own, protocol, offer), payload, r.id)
    ensures r.Violation? ==>
      && db.peers == old(db.peers) && db.snapshots == old(db.snapshots)
      && HasActive(db.snapshots, Triple(own, protocol, offer))
      && exists i :: i in db.snapshots && db.snapshots[i] == Row(Triple(own, protocol, offer), payload, false)
    ensures OwnRowsActive(old(db.snapshots), own) ==> r.Done? && OwnRowsActive(db.snapshots, own)
  {
    var peers := db.peers;
    if own !in db.peers {
      db.peers := db.peers[own := BARE_PEER];
    }
    r := db.UpsertUntargeted(Triple(own, protocol, offer), payload);
    if r.Violation? {
      assert own in peers;
      db.peers := peers;
    }
  }

  // The row handed back carries the provided payload exactly when the pair was never
  // provided with another one; otherwise it is the row of the first payload.
  lemma UpsertReturnsFirstPayload(before: Rows, after: Rows, t: Triple, payload: Text, id: int)
    requires OneActive(before) && OwnRowsActive(before, t.provider)
    requires Upserted(before, after, t, payload, id)
    ensures after[id].payload == payload <==>
      forall i | i in before && before[i].triple == t :: before[i].payload == payload
    ensures forall i | i in before && before[i].triple == t :: i == id && after == before
  {
  }

  datatype ProvideResponse = ProvideOk | DuplicateOffer

  class Server {
    var moduleIdsCounter: nat
    var modules: map<nat, ModuleOffers>
    var offersModuleMap: Nested<nat>
    var connections: map<nat, Option<nat>>
    var lastUpdatedAt: int

    function Current(): State
      reads this
    {
      State(moduleIdsCounter, modules, offersModuleMap, connections, lastUpdatedAt)
    }

    ghost predicate Valid()
      reads this
    {
      Synced(Current())
    }

    constructor (now: int)
      ensures Valid() && Current() == Restarted(now)
    {
      moduleIdsCounter, modules, offersModuleMap, connections, lastUpdatedAt := 0, map[], map[], map[], now;
    }

    method Accept(c: nat)
      requires Valid()
      modifies this
      ensures Valid() && Current() == Open(old(Current()), c)
    {
      StepKeepsSync(Current(), OpenStep(c), 0);
      if c !in connections {
        connections := connections[c := None];
      }
    }

    // Find or create the module of a connection.
    method EnsureModule(c: nat) returns (m: nat)
      requires c in connections
      requires connections[c].Some? ==> connections[c].value in modules
      requires connections[c].None? ==> moduleIdsCounter !in modules
      modifies this`moduleIdsCounter, this`modules, this`connections
      ensures m == ModuleFor(old(Current()), c)
      ensures connections == old(connections)[c := Some(m)]
      ensures modules == if m in old(modules) then old(modules) else old(modules)[m := map[]]
      ensures moduleIdsCounter == old(moduleIdsCounter) + if old(connections)[c].Some? then 0 else 1
    {
      if connections[c].Some? {
        m := connections[c].value;
      } else {
        m := moduleIdsCounter;
        connections := connections[c := Some(m)];
        moduleIdsCounter := moduleIdsCounter + 1;
        assert m !in modules;
        modules := modules[m := map[]];
      }
    }

    // Insert the offer into the module's map and the module's id into `offers_module_map`.
    method Record(m: nat, protocol: Text, offer: Text, provided: ProvidedOffer, now: int)
      requires m in modules && !Has(modules[m], protocol, offer)
      modifies this`modules, this`offersModuleMap, this`lastUpdatedAt
      ensures modules == old(modules)[m := Put(old(modules)[m], protocol, offer, provided)]
      ensures offersModuleMap == Put(old(offersModuleMap), protocol, offer, m)
      ensures lastUpdatedAt == now
    {
      var offers := modules[m];
      if protocol !in offers {
        offers := offers[protocol := map[]];
      }
      assert offer !in offers[protocol];
      offers := offers[protocol := offers[protocol][offer := provided]];
      assert offers == Put(modules[m], protocol, offer, provided);
      modules := modules[m := offers];
      if protocol !in offersModuleMap {
        offersModuleMap := offersModuleMap[protocol := map[]];
      }
      var moduleIds: map<Text, nat> := offersModuleMap[protocol];
      moduleIds := moduleIds[offer := m];
      offersModuleMap := offersModuleMap[protocol := moduleIds];
      lastUpdatedAt := now;
    }

    method AddOffer(db: Database, own: PeerId, c: nat, protocol: Text, offer: Text, payload: Text, now: int)
      returns (rowid: int)
      requires c in connections && !Has(offersModuleMap, protocol, offer)
      requires connections[c].Some? <==> ModuleFor(Current(), c) in modules
      requires ModuleFor(Current(), c) in modules ==> !Has(modules[ModuleFor(Current(), c)], protocol, offer)
      requires db.Valid() && OwnRowsActive(db.snapshots, own)
      modifies this, db
      ensures db.Valid() && OwnRowsActive(db.snapshots, own)
      ensures Evolved(old(db.snapshots), db.snapshots, own)
      ensures Current() == Provided(old(Current()), c, protocol, offer, ProvidedOffer(rowid, payload), now)
      ensures Upserted(old(db.snapshots), db.snapshots, Triple(own, protocol, offer), payload, rowid)
    {
      var m := EnsureModule(c);
      var r := Upsert(db, own, offer, protocol, payload);
      assert r.Done?;
      rowid := r.id;
      Record(m, protocol, offer, ProvidedOffer(rowid, payload), now);
    }

    method HandleProvide(db: Database, own: PeerId, c: nat, protocol: Text, offer: Text, payload: Text, now: int)
      returns (response: ProvideResponse, rowid: int)
      requires Valid() && c in connections
      requires db.Valid() && OwnRowsActive(db.snapshots, own)
      modifies this, db
      ensures Valid() && db.Valid() && OwnRowsActive(db.snapshots, own)
      ensures Evolved(old(db.snapshots), db.snapshots, own)
      ensures Current() == Provided(old(Current()), c, protocol, offer, ProvidedOffer(rowid, payload), now)
      ensures response == if Has(old(offersModuleMap), protocol, offer) then DuplicateOffer else ProvideOk
      ensures response.DuplicateOffer? ==> db.snapshots == old(db.snapshots) && db.peers == old(db.peers)
      ensures response.ProvideOk? ==>
        Upserted(old(db.snapshots), db.snapshots, Triple(own, protocol, offer), payload, rowid)
    {
      ghost var before := Current();
      if protocol in offersModuleMap && offer in offersModuleMap[protocol] {
        return DuplicateOffer, 0;
      }
      NewOfferIsNew(before, c, protocol, offer);
      rowid := AddOffer(db, own, c, protocol, offer, payload, now);
      response := ProvideOk;
      ProvidingKeepsSync(before, c, protocol, offer, ProvidedOffer(rowid, payload), now);
    }

    method HandleDisconnect(c: nat, now: int)
      requires Valid() && c in connections
      modifies this
      ensures Valid() && Current() == Closed(old(Current()), c, now)
    {
      ghost var before := Current();
      if connections[c].Some? {
        CleanUp(connections[c].value, now);
      }
      connections := connections - {c};
      ClosingKeepsSync(before, c, now);
    }

    method CleanUp(m: nat, now: int)
      requires Valid() && m in modules
      modifies this`modules, this`offersModuleMap, this`lastUpdatedAt
      ensures modules == old(modules) - {m}
      ensures offersModuleMap == Without(old(offersModuleMap), m)
      ensures lastUpdatedAt == now
    {
      ghost var before := Current();
      var offers := modules[m];
      modules := modules - {m};
      offersModuleMap := RemoveModule(offersModuleMap, offers, before, m);
      lastUpdatedAt := now;
    }

    // maybe_send_heartbeat: nothing to send without offers.
    method BuildHeartbeatOffers() returns (offers: Option<Nested<Text>>)
      requires Valid()
      ensures offers.None? <==> offersModuleMap == map[]
      ensures offers.Some? ==> offers.value == HeartbeatOffers(Current())
    {
      AnyOffersIff(Current());
      if forall m | m in modules :: |modules[m]| == 0 {
        return None;
      }
      var merged := MergeModules(modules, Current());
      offers := Some(merged);
    }
  }

  // ------------------------------------------------------- loops over nested maps

  // Remove each listed key; `unwrap` is the assertion that it is there.
  method RemoveKeys(inner: map<Text, nat>, keys: set<Text>) returns (rest: map<Text, nat>)
    requires keys <= inner.Keys
    ensures rest == inner - keys
  {
    rest := inner;
    var todo := keys;
    while todo != {}
      invariant todo <= keys && rest == inner - (keys - todo)
    {
      var o := Pick(todo);
      assert o in rest;
      todo := todo - {o};
      rest := rest - {o};
    }
  }

  // `now` is `base` without the offers of the module, except those of the protocols in `todo`.
  ghost predicate RemovedSoFar(now: Nested<nat>, base: Nested<nat>, offers: ModuleOffers, todo: set<Text>) {
    && NoEmptyInner(now)
    && forall q, o :: Get(now, q, o) == if q !in todo && Has(offers, q, o) then None else Get(base, q, o)
  }

  method RemoveModule(base: Nested<nat>, offers: ModuleOffers, ghost s: State, ghost m: nat) returns (now: Nested<nat>)
    requires Synced(s) && m in s.modules && offers == s.modules[m] && base == s.offersModuleMap
    ensures now == Without(base, m)
  {
    now := base;
    var todo := offers.Keys;
    while todo != {}
      invariant todo <= offers.Keys && RemovedSoFar(now, base, offers, todo)
    {
      var p := Pick(todo);
      StillListed(s, now, m, todo, p);
      ghost var now0, todo0 := now, todo;
      todo := todo - {p};
      var rest := RemoveKeys(now[p], offers[p].Keys);
      now := if |rest| == 0 then now - {p} else now[p := rest];
      RemovingProtocol(now0, now, base, offers, todo0, p, rest);
    }
    WithoutLookups(base, m);
    forall q, o
      ensures Get(now, q, o) == Get(Without(base, m), q, o)
    {
      OfferedByIff(s, m, q, o);
    }
    SameLookups(now, Without(base, m));
  }

  lemma DropLookups(now: Nested<nat>, next: Nested<nat>, p: Text, keys: set<Text>, rest: map<Text, nat>)
    requires p in now && rest == now[p] - keys
    requires next == if |rest| == 0 then now - {p} else now[p := rest]
    ensures NoEmptyInner(now) ==> NoEmptyInner(next)
    ensures forall q, o :: Get(next, q, o) == if q == p && o in keys then None else Get(now, q, o)
  {
  }

  lemma RemovingProtocol(now: Nested<nat>, next: Nested<nat>, base: Nested<nat>, offers: ModuleOffers,
                         todo: set<Text>, p: Text, rest: map<Text, nat>)
    requires RemovedSoFar(now, base, offers, todo)
    requires p in todo && p in offers && p in now && rest == now[p] - offers[p].Keys
    requires next == if |rest| == 0 then now - {p} else now[p := rest]
    ensures RemovedSoFar(next, base, offers, todo - {p})
  {
    DropLookups(now, next, p, offers[p].Keys, rest);
  }

  // `merged` is `base` with those offers of protocol p that are not in `todo`.
  ghost predicate MergedSoFar(merged: Nested<Text>, base: Nested<Text>, p: Text,
                              offers: map<Text, ProvidedOffer>, todo: set<Text>) {
    && p in merged
    && (forall q | q in merged && q != p :: merged[q].Keys != {})
    && forall q, o :: Get(merged, q, o) ==
         if q == p && o in offers && o !in todo then Some(offers[o].payload) else Get(base, q, o)
  }

  method MergeProtocol(p: Text, offers: map<Text, ProvidedOffer>, base: Nested<Text>) returns (merged: Nested<Text>)
    requires offers.Keys != {} && NoEmptyInner(base)
    requires forall o | o in offers :: !Has(base, p, o)
    ensures NoEmptyInner(merged)
    ensures forall q, o :: Get(merged, q, o) == if q == p && o in offers then Some(offers[o].payload) else Get(base, q, o)
  {
    merged := base;
    if p !in merged {
      merged := merged[p := map[]];
    }
    var ids := offers.Keys;
    while ids != {}
      invariant ids <= offers.Keys && MergedSoFar(merged, base, p, offers, ids)
    {
      var o := Pick(ids);
      assert Get(merged, p, o) == Get(base, p, o);
      assert o !in merged[p];
      ghost var merged0, ids0 := merged, ids;
      ids := ids - {o};
      merged := merged[p := merged[p][o := offers[o].payload]];
      MergingOffer(merged0, merged, base, p, offers, ids0, o);
    }
    ghost var o := AnyKey(offers);
    assert Get(merged, p, o) == Some(offers[o].payload);
    assert o in merged[p].Keys;
  }

  lemma MergingOffer(merged: Nested<Text>, next: Nested<Text>, base: Nested<Text>, p: Text,
                     offers: map<Text, ProvidedOffer>, todo: set<Text>, o: Text)
    requires MergedSoFar(merged, base, p, offers, todo) && o in offers && o in todo
    requires next == merged[p := merged[p][o := offers[o].payload]]
    ensures MergedSoFar(next, base, p, offers, todo - {o})
  {
    forall q, r
      ensures Get(next, q, r) ==
        if q == p && r in offers && r !in todo - {o} then Some(offers[r].payload) else Get(base, q, r)
    {
      assert Get(merged, q, r) ==
        if q == p && r in offers && r !in todo then Some(offers[r].payload) else Get(base, q, r);
    }
  }

  ghost predicate MergedModule(merged: Nested<Text>, base: Nested<Text>, offers: ModuleOffers, todo: set<Text>) {
    && NoEmptyInner(merged)
    && forall p, o :: Get(merged, p, o) ==
         if p !in todo && Has(offers, p, o) then Some(At(offers, p, o).payload) else Get(base, p, o)
  }

  // Merge one module's offers into the heartbeat. `unwrap_none` is the assertion in
  // `MergeProtocol` that the key is new.
  method MergeModule(offers: ModuleOffers, base: Nested<Text>) returns (merged: Nested<Text>)
    requires NoEmptyInner(offers) && NoEmptyInner(base)
    requires forall p, o | Has(offers, p, o) :: !Has(base, p, o)
    ensures MergedModule(merged, base, offers, {})
  {
    merged := base;
    var protocols := offers.Keys;
    while protocols != {}
      invariant protocols <= offers.Keys && MergedModule(merged, base, offers, protocols)
    {
      var p := Pick(protocols);
      forall o | o in offers[p]
        ensures !Has(merged, p, o)
      {
        assert Has(offers, p, o);
        assert Get(merged, p, o) == Get(base, p, o);
      }
      ghost var merged0, protocols0 := merged, protocols;
      protocols := protocols - {p};
      merged := MergeProtocol(p, offers[p], merged);
      forall q, o
        ensures Get(merged, q, o) ==
          if q !in protocols && Has(offers, q, o) then Some(At(offers, q, o).payload) else Get(base, q, o)
      {
        assert Get(merged0, q, o) ==
          if q !in protocols0 && Has(offers, q, o) then Some(At(offers, q, o).payload) else Get(base, q, o);
      }
    }
  }

  method MergeModules(modules: map<nat, ModuleOffers>, ghost s: State) returns (merged: Nested<Text>)
    requires Synced(s) && modules == s.modules
    ensures merged == HeartbeatOffers(s)
  {
    merged := map[];
    var todo := modules.Keys;
    while todo != {}
      invariant todo <= modules.Keys && NoEmptyInner(merged) && MergedFrom(s, merged, todo)
    {
      var m := Pick(todo);
      ghost var merged0 := merged;
      assert todo == todo - {m} + {m};
      todo := todo - {m};
      ModulesAreDisjoint(s, merged0, todo, m);
      merged := MergeModule(modules[m], merged);
      MergingAdds(s, merged0, merged, todo, m);
    }
    HeartbeatOffersLookups(s);
    SameLookups(merged, HeartbeatOffers(s));
  }

  // ------------------------------------------------------------- proof helpers

  lemma AnyKey<V>(m: map<Text, V>) returns (k: Text)
    requires m.Keys != {}
    ensures k in m
  {
    k :| k in m.Keys;
  }

  lemma OfferedByIff(s: State, m: nat, p: Text, o: Text)
    requires Inverse(s) && m in s.modules
    ensures Has(s.modules[m], p, o) <==> Get(s.offersModuleMap, p, o) == Some(m)
  {
  }

  lemma UnlistedIsUnoffered(s: State, p: Text, o: Text)
    requires Inverse(s) && !Has(s.offersModuleMap, p, o)
    ensures forall m | m in s.modules :: !Has(s.modules[m], p, o)
  {
    forall m | m in s.modules
      ensures !Has(s.modules[m], p, o)
    {
      OfferedByIff(s, m, p, o);
    }
  }

  // `get_mut(protocol_id).unwrap()` and `remove(offer_id).unwrap()` of the cleanup.
  lemma StillListed(s: State, now: Nested<nat>, m: nat, todo: set<Text>, p: Text)
    requires Synced(s) && m in s.modules && todo <= s.modules[m].Keys && p in todo
    requires RemovedSoFar(now, s.offersModuleMap, s.modules[m], todo)
    ensures p in now && s.modules[m][p].Keys <= now[p].Keys
  {
    forall o | o in s.modules[m][p]
      ensures Has(now, p, o)
    {
      OfferedByIff(s, m, p, o);
      assert Has(s.modules[m], p, o);
      assert Get(now, p, o) == Some(m);
    }
    var o := AnyKey(s.modules[m][p]);
    assert Has(now, p, o);
    forall r | r in s.modules[m][p].Keys
      ensures r in now[p].Keys
    {
      assert Has(now, p, r);
    }
  }

  lemma AnyOffersIff(s: State)
    requires Synced(s)
    ensures (exists m | m in s.modules :: |s.modules[m]| != 0) <==> s.offersModuleMap != map[]
  {
    if m :| m in s.modules && |s.modules[m]| != 0 {
      assert s.modules[m].Keys != {};
      var p := AnyKey(s.modules[m]);
      var o := AnyKey(s.modules[m][p]);
      assert Has(s.modules[m], p, o);
      assert Get(s.offersModuleMap, p, o) == Some(m);
      assert p in s.offersModuleMap;
    }
    if s.offersModuleMap != map[] {
      assert s.offersModuleMap.Keys != {};
      var p := AnyKey(s.offersModuleMap);
      var o := AnyKey(s.offersModuleMap[p]);
      assert Has(s.offersModuleMap, p, o);
      var m := At(s.offersModuleMap, p, o);
      assert p in s.modules[m].Keys;
      assert m in s.modules && |s.modules[m]| != 0;
    }
  }

  // `merged` holds the offers of every module outside `todo`.
  ghost predicate MergedFrom(s: State, merged: Nested<Text>, todo: set<nat>)
    requires Synced(s)
  {
    forall p, o :: Get(merged, p, o) ==
      if Has(s.offersModuleMap, p, o) && At(s.offersModuleMap, p, o) !in todo
      then Some(ListedPayload(s, p, o)) else None
  }

  lemma ModulesAreDisjoint(s: State, merged: Nested<Text>, todo: set<nat>, m: nat)
    requires Synced(s) && m in s.modules && m !in todo && MergedFrom(s, merged, todo + {m})
    ensures forall p, o | Has(s.modules[m], p, o) :: !Has(merged, p, o)
  {
    forall p, o | Has(s.modules[m], p, o)
      ensures !Has(merged, p, o)
    {
      OfferedByIff(s, m, p, o);
      assert Get(merged, p, o) == None;
    }
  }

  lemma MergingAdds(s: State, merged0: Nested<Text>, merged: Nested<Text>, todo: set<nat>, m: nat)
    requires Synced(s) && m in s.modules && m !in todo && MergedFrom(s, merged0, todo + {m})
    requires MergedModule(merged, merged0, s.modules[m], {})
    ensures MergedFrom(s, merged, todo)
  {
    forall p, o
      ensures Get(merged, p, o) ==
        if Has(s.offersModuleMap, p, o) && At(s.offersModuleMap, p, o) !in todo
        then Some(ListedPayload(s, p, o)) else None
    {
      OfferedByIff(s, m, p, o);
    }
  }

  lemma HeartbeatOffersLookups(s: State)
    requires Synced(s)
    ensures NoEmptyInner(HeartbeatOffers(s))
    ensures forall p, o :: Get(HeartbeatOffers(s), p, o) ==
                           (if FindOffer(s, p, o).Some? then Some(FindOffer(s, p, o).value.provided.payload) else None)
  {
    forall p | p in HeartbeatOffers(s)
      ensures HeartbeatOffers(s)[p].Keys != {}
    {
      var o := AnyKey(s.offersModuleMap[p]);
      assert o in HeartbeatOffers(s)[p].Keys;
    }
  }
}
