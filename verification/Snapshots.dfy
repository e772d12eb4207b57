/**
 The `peers` and `offer_snapshots` tables, with the constraints of migrations
 001 and 002, and the statements the program runs on them. A statement that
 would break a constraint fails and leaves the tables as they were.
 */
module Snapshots {
  import opened Base

  datatype Triple = Triple(provider: PeerId, protocol: Text, offer: Text)

  datatype Row = Row(triple: Triple, payload: Text, active: bool)

  type Rows = map<int, Row>

  datatype Profile = Profile(name: Option<Text>, teaser: Option<Text>, description: Option<Text>)

  // The columns of `peers` that are read back; the two "their" clocks in seconds.
  datatype PeerRow = PeerRow(profile: Profile, updatedAt: Option<int>, heartbeatAt: Option<int>)

  const BARE_PEER := PeerRow(Profile(None, None, None), None, None)

  // idx_offer_snapshots_protocol_payload
  ghost predicate OnePerPayload(rows: Rows) {
    forall i, j | i in rows && j in rows ::
      rows[i].triple == rows[j].triple && rows[i].payload == rows[j].payload ==> i == j
  }

  // idx_offer_snapshots_main_active
  ghost predicate OneActive(rows: Rows) {
    forall i, j | i in rows && j in rows ::
      rows[i].active && rows[j].active && rows[i].triple == rows[j].triple ==> i == j
  }

  // REFERENCES peers (peer_id)
  ghost predicate Referenced(peers: map<PeerId, PeerRow>, rows: Rows) {
    forall i | i in rows :: rows[i].triple.provider in peers
  }

  ghost predicate HasActive(rows: Rows, t: Triple) {
    exists i :: i in rows && rows[i].active && rows[i].triple == t
  }

  ghost predicate HasPayload(rows: Rows, t: Triple, payload: Text) {
    exists i :: i in rows && rows[i].triple == t && rows[i].payload == payload
  }

  // Rows are never deleted and never change triple or payload; only rows of
  // `provider` appear or change their `active` flag.
  ghost predicate Evolved(before: Rows, after: Rows, provider: PeerId) {
    && (forall i | i in before ::
          && i in after
          && after[i].triple == before[i].triple
          && after[i].payload == before[i].payload
          && (before[i].triple.provider != provider ==> after[i] == before[i]))
    && (forall i | i in after && i !in before :: after[i].triple.provider == provider)
  }

  // `after` is `before` with row `id` of (t, payload) active, inserted if it was missing.
  ghost predicate Activated(before: Rows, after: Rows, t: Triple, payload: Text, id: int) {
    && after == before[id := Row(t, payload, true)]
    && (id in before ==> before[id].triple == t && before[id].payload == payload)
  }

  datatype SqlResult = Done(id: int) | Violation

  class Database {
    var peers: map<PeerId, PeerRow>
    var snapshots: Rows
    // Rows are never deleted, so "largest rowid plus one" is a counter.
    var nextRowid: int

    ghost predicate Valid()
      reads this
    {
      && OnePerPayload(snapshots)
      && OneActive(snapshots)
      && Referenced(peers, snapshots)
      && (forall i | i in snapshots :: i < nextRowid)
    }

    constructor ()
      ensures Valid() && peers == map[] && snapshots == map[]
    {
      peers, snapshots, nextRowid := map[], map[], 1;
    }

    // UPDATE offer_snapshots SET active = 0 WHERE rowid = ?
    method Deactivate(id: int)
      requires Valid() && id in snapshots
      modifies this`snapshots
      ensures Valid()
      ensures snapshots == old(snapshots)[id := old(snapshots)[id].(active := false)]
    {
      snapshots := snapshots[id := snapshots[id].(active := false)];
    }

    // INSERT INTO offer_snapshots ... VALUES (..., 1, ...)
    method Insert(t: Triple, payload: Text) returns (r: SqlResult)
      requires Valid()
      modifies this`snapshots, this`nextRowid
      ensures Valid()
      ensures r.Done? <==>
        t.provider in peers && !HasActive(old(snapshots), t) && !HasPayload(old(snapshots), t, payload)
      ensures r.Done? ==> r.id !in old(snapshots) && Activated(old(snapshots), snapshots, t, payload, r.id)
      ensures r.Violation? ==> snapshots == old(snapshots)
    {
      if t.provider !in peers {
        return Violation;
      }
      if i :| i in snapshots && snapshots[i].triple == t && (snapshots[i].active || snapshots[i].payload == payload) {
        return Violation;
      }
      r := Done(nextRowid);
      snapshots := snapshots[nextRowid := Row(t, payload, true)];
      nextRowid := nextRowid + 1;
    }

    // INSERT ... ON CONFLICT (provider, protocol, offer, payload) DO UPDATE SET active = 1.
    // The conflict target names the payload index, so an active row of the triple with
    // another payload is a plain violation of the other index.
    method UpsertByPayload(t: Triple, payload: Text) returns (r: SqlResult)
      requires Valid()
      modifies this`snapshots, this`nextRowid
      ensures Valid()
      ensures r.Done? <==>
        && t.provider in peers
        && (forall i | i in old(snapshots) && old(snapshots)[i].active && old(snapshots)[i].triple == t ::
              old(snapshots)[i].payload == payload)
      ensures r.Done? ==> Activated(old(snapshots), snapshots, t, payload, r.id)
      ensures r.Violation? ==> snapshots == old(snapshots)
    {
      if t.provider !in peers {
        return Violation;
      }
      if i :| i in snapshots && snapshots[i].triple == t && snapshots[i].active && snapshots[i].payload != payload {
        return Violation;
      }
      if i :| i in snapshots && snapshots[i].triple == t && snapshots[i].payload == payload {
        r := Done(i);
        snapshots := snapshots[i := Row(t, payload, true)];
      } else {
        r := Done(nextRowid);
        snapshots := snapshots[nextRowid := Row(t, payload, true)];
        nextRowid := nextRowid + 1;
      }
    }

    // INSERT ... ON CONFLICT DO UPDATE SET active = 1, without a conflict target.
    // Whichever unique index is found violated first names the row that is updated, so when
    // an inactive row has the payload and another row of the triple is active the statement
    // either updates the active row (a no-op) or fails.
    method UpsertUntargeted(t: Triple, payload: Text) returns (r: SqlResult)
      requires Valid()
      modifies this`snapshots, this`nextRowid
      ensures Valid()
      ensures t.provider !in peers ==> r.Violation?
      ensures t.provider in peers && !HasActive(old(snapshots), t) ==>
        r.Done? && Activated(old(snapshots), snapshots, t, payload, r.id)
      ensures HasActive(old(snapshots), t) ==> snapshots == old(snapshots)
      ensures HasActive(old(snapshots), t) && r.Done? ==>
        r.id in snapshots && snapshots[r.id].active && snapshots[r.id].triple == t
      ensures r.Violation? ==>
        && snapshots == old(snapshots)
        && (t.provider in peers ==>
              exists i, j :: && i in snapshots && snapshots[i] == Row(t, payload, false)
                             && j in snapshots && snapshots[j].triple == t && snapshots[j].active)
    {
      if t.provider !in peers {
        return Violation;
      }
      if j :| j in snapshots && snapshots[j].triple == t && snapshots[j].active {
        r := Done(j);
        if i :| i in snapshots && snapshots[i].triple == t && snapshots[i].payload == payload && i != j {
          if * {
            r := Violation;
          }
        }
      } else if i :| i in snapshots && snapshots[i].triple == t && snapshots[i].payload == payload {
        r := Done(i);
        snapshots := snapshots[i := Row(t, payload, true)];
      } else {
        r := Done(nextRowid);
        snapshots := snapshots[nextRowid := Row(t, payload, true)];
        nextRowid := nextRowid + 1;
      }
    }
  }
}
