/**
 Vocabulary shared by every component: bytes, text and optional values.
 Text (peer ids, protocol ids, payloads) is a sequence of bytes; nothing in the
 program looks inside it except the job hash, which works on the bytes.
 */
module Base {

  datatype Option<+T> = None | Some(value: T)

  newtype byte = x: int | 0 <= x < 256

  type Text = seq<byte>

  type PeerId = Text

  ghost predicate NoDuplicates<T>(s: seq<T>) {
    forall i, j | 0 <= i < j < |s| :: s[i] != s[j]
  }

  // Iteration over an unordered collection: any member may come next.
  method Pick<T(==)>(s: set<T>) returns (x: T)
    requires s != {}
    ensures x in s
  {
    x :| x in s;
  }
}

/**
 Two-level maps `ProtocolId => OfferId => V`, the shape of `offers_module_map`,
 of a module's `offers`, and of the offers inside a heartbeat.
 */
module Nested {
  import opened Base

  type Nested<+V> = map<Text, map<Text, V>>

  predicate Has<V>(m: Nested<V>, p: Text, o: Text) {
    p in m && o in m[p]
  }

  function At<V>(m: Nested<V>, p: Text, o: Text): V
    requires Has(m, p, o)
  {
    m[p][o]
  }

  function Get<V>(m: Nested<V>, p: Text, o: Text): Option<V> {
    if Has(m, p, o) then Some(m[p][o]) else None
  }

  function Put<V>(m: Nested<V>, p: Text, o: Text, v: V): Nested<V> {
    m[p := (if p in m then m[p] else map[])[o := v]]
  }

  ghost predicate NoEmptyInner<V>(m: Nested<V>) {
    forall p | p in m :: m[p].Keys != {}
  }

  // Without empty inner maps, a nested map is determined by its lookups.
  lemma SameLookups<V>(a: Nested<V>, b: Nested<V>)
    requires NoEmptyInner(a) && NoEmptyInner(b)
    requires forall p, o :: Get(a, p, o) == Get(b, p, o)
    ensures a == b
  {
    forall p
      ensures p in a <==> p in b
    {
      if p in a {
        var o :| o in a[p].Keys;
        assert Get(b, p, o) == Get(a, p, o) == Some(a[p][o]);
      }
      if p in b {
        var o :| o in b[p].Keys;
        assert Get(a, p, o) == Get(b, p, o) == Some(b[p][o]);
      }
    }
    forall p | p in a
      ensures a[p] == b[p]
    {
      forall o
        ensures o in a[p] <==> o in b[p]
        ensures o in a[p] ==> a[p][o] == b[p][o]
      {
        assert Get(a, p, o) == Get(b, p, o);
      }
    }
  }
}
