/** The last-writer-wins store of link verdicts and the node directory
    (crates/controller/src/kv.rs) and one anti-entropy exchange of it
    (crates/controller/src/gossip.rs, `exchange` and `push_one`). */
module Kv {
  import opened Core
  import Quality

  datatype Stamped<T> = Stamped(ts: nat, body: T)

  /** A link's live record: the view it was judged by, and the class and cost in force. */
  datatype Verdict = Verdict(view: Quality.View, quality: Option<Quality.Quality>, cost: Option<nat>)

  datatype NodeEntry = NodeEntry(name: string, links: seq<LinkKey>)

  type Records = map<LinkKey, Stamped<Verdict>>

  type Directory = map<string, Stamped<NodeEntry>>

  // ── Last writer wins ─────────────────────────────────────────────────────

  /** An equal or newer record replaces the one held. */
  function Written<K, V>(m: map<K, Stamped<V>>, k: K, v: Stamped<V>): map<K, Stamped<V>> {
    if k in m && v.ts < m[k].ts then m else m[k := v]
  }

  function WrittenAll<K, V>(m: map<K, Stamped<V>>, writes: seq<(K, Stamped<V>)>): map<K, Stamped<V>>
    decreases |writes|
  {
    if writes == [] then m
    else
      var (k, v) := writes[|writes| - 1];
      Written(WrittenAll(m, writes[..|writes| - 1]), k, v)
  }

  function Newer<V>(a: Stamped<V>, b: Stamped<V>): Stamped<V> { if b.ts < a.ts then a else b }

  /** The newer record of every key; at equal times `b`'s. */
  function Join<K, V>(a: map<K, Stamped<V>>, b: map<K, Stamped<V>>): map<K, Stamped<V>> {
    map k | k in a.Keys + b.Keys ::
      if k !in b then a[k] else if k !in a then b[k] else Newer(a[k], b[k])
  }

  /** The hypothesis for merges to commute: a key and time determine the record. */
  ghost predicate Coherent<K(!new), V(!new)>(a: map<K, Stamped<V>>, b: map<K, Stamped<V>>) {
    forall k :: k in a && k in b && a[k].ts == b[k].ts ==> a[k] == b[k]
  }

  lemma JoinCommutes<K(!new), V(!new)>(a: map<K, Stamped<V>>, b: map<K, Stamped<V>>)
    ensures Join(a, b) == Join(b, a) <==> Coherent(a, b)
  {
    if Join(a, b) == Join(b, a) {
      forall k | k in a && k in b && a[k].ts == b[k].ts ensures a[k] == b[k] {
        assert Join(a, b)[k] == b[k] && Join(b, a)[k] == a[k];
      }
    }
  }

  lemma JoinAssociates<K, V>(a: map<K, Stamped<V>>, b: map<K, Stamped<V>>, c: map<K, Stamped<V>>)
    ensures Join(Join(a, b), c) == Join(a, Join(b, c))
  {
  }

  lemma JoinIsIdempotent<K, V>(a: map<K, Stamped<V>>, b: map<K, Stamped<V>>)
    ensures Join(a, a) == a
    ensures Join(a, Join(a, b)) == Join(a, b) == Join(Join(a, b), b)
  {
  }

  /** No key is lost and no key's time goes back, whatever is written. */
  lemma {:induction false} TimesNeverGoBack<K(!new), V(!new)>(m: map<K, Stamped<V>>, writes: seq<(K, Stamped<V>)>)
    ensures forall k :: k in m ==> k in WrittenAll(m, writes) && m[k].ts <= WrittenAll(m, writes)[k].ts
    decreases |writes|
  {
    if writes != [] {
      TimesNeverGoBack(m, writes[..|writes| - 1]);
    }
  }

  /** A listing of a store, in any order. */
  ghost predicate Lists<K(!new), V(!new)>(writes: seq<(K, Stamped<V>)>, m: map<K, Stamped<V>>) {
    && (forall w :: w in writes ==> w.0 in m && m[w.0] == w.1)
    && (forall k :: k in m ==> (k, m[k]) in writes)
  }

  ghost predicate Mentions<K(!new), V(!new)>(writes: seq<(K, Stamped<V>)>, k: K) {
    exists w :: w in writes && w.0 == k
  }

  /** Merging the entries one by one is the join, whatever order they come in. */
  lemma MergeIsJoin<K(!new), V(!new)>(a: map<K, Stamped<V>>, b: map<K, Stamped<V>>, writes: seq<(K, Stamped<V>)>)
    requires Lists(writes, b)
    ensures WrittenAll(a, writes) == Join(a, b)
  {
    PartialMerge(a, b, writes);
    var m := WrittenAll(a, writes);
    forall k ensures k in m <==> k in Join(a, b) {
      if k in b {
        assert (k, b[k]) in writes;
      }
    }
    forall k | k in m ensures m[k] == Join(a, b)[k] {
      if k in b {
        assert (k, b[k]) in writes;
      }
    }
  }

  lemma {:induction false} PartialMerge<K(!new), V(!new)>(
      a: map<K, Stamped<V>>, b: map<K, Stamped<V>>, writes: seq<(K, Stamped<V>)>)
    requires forall w :: w in writes ==> w.0 in b && b[w.0] == w.1
    ensures var m := WrittenAll(a, writes);
            && (forall k :: k in m <==> k in a || Mentions(writes, k))
            && (forall k :: k in m ==>
                  m[k] == if Mentions(writes, k) then Join(a, b)[k] else a[k])
    decreases |writes|
  {
    if writes != [] {
      var front, w := writes[..|writes| - 1], writes[|writes| - 1];
      assert writes == front + [w];
      PartialMerge(a, b, front);
      forall k ensures Mentions(writes, k) <==> Mentions(front, k) || w.0 == k {
        if Mentions(front, k) {
          var x :| x in front && x.0 == k;
          assert x in writes;
        }
        if w.0 == k {
          assert w in writes;
        }
      }
    }
  }

  /** One record per key and time over everything written. */
  ghost predicate OneRecordPerTime<K(!new), V(!new)>(writes: seq<(K, Stamped<V>)>) {
    forall x, y :: x in writes && y in writes && x.0 == y.0 && x.1.ts == y.1.ts ==> x.1 == y.1
  }

  ghost predicate NewestOf<K(!new), V(!new)>(writes: seq<(K, Stamped<V>)>, k: K, v: Stamped<V>) {
    (k, v) in writes && forall x :: x in writes && x.0 == k ==> x.1.ts <= v.ts
  }

  /** A store built from writes holds, of every key written, a newest record. */
  lemma {:induction false} StoreHoldsNewest<K(!new), V(!new)>(writes: seq<(K, Stamped<V>)>)
    ensures var m := WrittenAll(map[], writes);
            && (forall k :: k in m ==> NewestOf(writes, k, m[k]))
            && (forall x :: x in writes ==> x.0 in m)
    decreases |writes|
  {
    if writes != [] {
      var front, w := writes[..|writes| - 1], writes[|writes| - 1];
      assert writes == front + [w];
      StoreHoldsNewest(front);
      var before, m := WrittenAll(map[], front), WrittenAll(map[], writes);
      assert w in writes;
      forall k | k in m ensures NewestOf(writes, k, m[k]) {
        if k in before {
          assert NewestOf(front, k, before[k]);
          assert (k, before[k]) in front && (k, before[k]) in writes;
        }
        forall x | x in writes && x.0 == k ensures x.1.ts <= m[k].ts {
          assert x in front || x == w;
        }
      }
      forall x | x in writes ensures x.0 in m {
        assert x in front || x == w;
      }
    }
  }

  /** So stores that saw the same writes are equal, whatever the order and however
      often each write arrived. */
  lemma StoreDependsOnlyOnWrites<K(!new), V(!new)>(a: seq<(K, Stamped<V>)>, b: seq<(K, Stamped<V>)>)
    requires forall x :: x in a <==> x in b
    requires OneRecordPerTime(a)
    ensures WrittenAll(map[], a) == WrittenAll(map[], b)
  {
    StoreHoldsNewest(a);
    StoreHoldsNewest(b);
    var m, n := WrittenAll(map[], a), WrittenAll(map[], b);
    forall k | k in m ensures k in n && m[k] == n[k] {
      assert NewestOf(a, k, m[k]);
      assert (k, m[k]) in b;
      assert NewestOf(b, k, n[k]);
      assert (k, n[k]) in a;
    }
    forall k | k in n ensures k in m {
      assert NewestOf(b, k, n[k]);
      assert (k, n[k]) in a;
    }
    assert m.Keys == n.Keys;
  }

  /** One acknowledged exchange: the peer merges the pusher's view and answers with
      the result, which the pusher merges. Both end with the same store. */
  lemma ExchangeMeets<K(!new), V(!new)>(pusher: map<K, Stamped<V>>, peer: map<K, Stamped<V>>)
    ensures Join(pusher, Join(peer, pusher)) == Join(peer, pusher)
    ensures Coherent(pusher, peer) ==> Join(peer, pusher) == Join(pusher, peer)
  {
  }

  /** Expiry forgets times: an older record is taken back exactly when the newer
      one had expired. */
  lemma ExpiryForgets<K, V>(m: map<K, Stamped<V>>, k: K, stale: Stamped<V>, now: nat, maxAge: nat)
    requires k in m && stale.ts < m[k].ts
    ensures Written(Fresh(m, now, maxAge), k, stale)[k].ts < m[k].ts <==> SatSub(now, m[k].ts) > maxAge
  {
  }

  function Fresh<K, V>(m: map<K, Stamped<V>>, now: nat, maxAge: nat): map<K, Stamped<V>> {
    map k | k in m && SatSub(now, m[k].ts) <= maxAge :: m[k]
  }

  // ── In place ─────────────────────────────────────────────────────────────

  /** The entry changes what the ones before it left. */
  predicate Changes<V(==)>(m: map<string, Stamped<V>>, entries: seq<(string, Stamped<V>)>, i: nat)
    requires i < |entries|
  {
    WrittenAll(m, entries[..i + 1]) != WrittenAll(m, entries[..i])
  }

  class LwwStore {
    var inner: Records
    var nodes: Directory

    constructor ()
      ensures inner == map[] && nodes == map[]
    {
      inner, nodes := map[], map[];
    }

    /** `put`: false when an older record was rejected. */
    method Put(key: LinkKey, rec: Stamped<Verdict>) returns (stored: bool)
      modifies this`inner
      ensures inner == Written(old(inner), key, rec)
      ensures stored <==> key !in old(inner) || old(inner)[key].ts <= rec.ts
    {
      if key in inner && rec.ts < inner[key].ts {
        return false;
      }
      inner := inner[key := rec];
      return true;
    }

    /** `merge`: a peer's records, one by one. */
    method Merge(records: seq<(LinkKey, Stamped<Verdict>)>)
      modifies this`inner
      ensures inner == WrittenAll(old(inner), records)
    {
      for i := 0 to |records|
        invariant inner == WrittenAll(old(inner), records[..i])
      {
        var (k, v) := records[i];
        var prev := if k in inner then inner[k].ts else 0;
        if v.ts >= prev {
          inner := inner[k := v];
        }
        assert records[..i + 1][..i] == records[..i];
      }
      assert records[..|records|] == records;
    }

    /** `set_node`: true when the directory changed. */
    method SetNode(rid: string, name: string, links: seq<LinkKey>, ts: nat) returns (changed: bool)
      modifies this`nodes
      ensures nodes == Written(old(nodes), rid, Stamped(ts, NodeEntry(name, links)))
      ensures changed <==> nodes != old(nodes)
    {
      var entry := Stamped(ts, NodeEntry(name, links));
      if rid in nodes && nodes[rid].ts > ts {
        return false;
      }
      if rid in nodes && nodes[rid].ts == ts && nodes[rid].body.name == name && nodes[rid].body.links == links {
        assert nodes[rid] == entry;
        return false;
      }
      nodes := nodes[rid := entry];
      assert rid in old(nodes) ==> old(nodes)[rid] != nodes[rid];
      return true;
    }

    /** `merge_nodes`: the peer's directory, one by one; unchanged when every entry
        was already held or older. */
    method MergeNodes(entries: seq<(string, Stamped<NodeEntry>)>) returns (changed: bool)
      modifies this`nodes
      ensures nodes == WrittenAll(old(nodes), entries)
      ensures !changed ==> nodes == old(nodes)
      ensures changed <==> exists i :: 0 <= i < |entries| && Changes(old(nodes), entries, i)
    {
      changed := false;
      for i := 0 to |entries|
        invariant nodes == WrittenAll(old(nodes), entries[..i])
        invariant !changed ==> nodes == old(nodes)
        invariant changed <==> exists j :: 0 <= j < i && Changes(old(nodes), entries, j)
      {
        assert entries[..i + 1][..i] == entries[..i];
        var (rid, e) := entries[i];
        var newer := rid !in nodes || e.ts > nodes[rid].ts
                  || (e.ts == nodes[rid].ts
                      && (e.body.name != nodes[rid].body.name || e.body.links != nodes[rid].body.links));
        if newer {
          assert nodes[rid := e] != nodes;
          nodes := nodes[rid := e];
          changed := true;
        } else {
          assert e.ts == nodes[rid].ts ==> nodes[rid] == e;
        }
        assert newer <==> Changes(old(nodes), entries, i);
      }
      assert entries[..|entries|] == entries;
    }

    /** `prune`: expire old records; names never expire. */
    method Prune(now: nat, maxAge: nat)
      modifies this`inner
      ensures inner == Fresh(old(inner), now, maxAge)
    {
      inner := map k | k in inner && SatSub(now, inner[k].ts) <= maxAge :: inner[k];
    }
  }

  /** `all` and `nodes`: the store as a list, in the map's own order. */
  method All<K(==, !new), V(!new)>(m: map<K, Stamped<V>>) returns (out: seq<(K, Stamped<V>)>)
    ensures Lists(out, m)
  {
    out := [];
    var keys := m.Keys;
    while keys != {}
      invariant keys <= m.Keys
      invariant forall w :: w in out ==> w.0 in m && m[w.0] == w.1
      invariant forall k :: k in m && k !in keys ==> (k, m[k]) in out
      decreases |keys|
    {
      var k :| k in keys;
      out := out + [(k, m[k])];
      keys := keys - {k};
    }
  }

  /** `push_one` against `exchange`, acknowledged, with nothing else writing: both
      members end with the same join of their stores, directory included. */
  method Exchange(pusher: LwwStore, peer: LwwStore)
    requires pusher != peer
    modifies pusher, peer
    ensures pusher.inner == peer.inner == Join(old(peer.inner), old(pusher.inner))
    ensures pusher.nodes == peer.nodes == Join(old(peer.nodes), old(pusher.nodes))
  {
    var records := All(pusher.inner);
    var entries := All(pusher.nodes);
    peer.Merge(records);
    MergeIsJoin(old(peer.inner), old(pusher.inner), records);
    if entries != [] {
      var _ := peer.MergeNodes(entries);
    }
    MergeIsJoin(old(peer.nodes), old(pusher.nodes), entries);
    var reply := All(peer.inner);
    var directory := All(peer.nodes);
    pusher.Merge(reply);
    MergeIsJoin(old(pusher.inner), peer.inner, reply);
    ExchangeMeets(old(pusher.inner), old(peer.inner));
    if directory != [] {
      var _ := pusher.MergeNodes(directory);
    }
    MergeIsJoin(old(pusher.nodes), peer.nodes, directory);
    ExchangeMeets(old(pusher.nodes), old(peer.nodes));
  }
}
