/** The time-series store of one controller (crates/controller/src/tsdb.rs, `Tsdb`):
    its rings, buckets and gossip delta source as one value, and the class that
    updates them in place. */
module Tsdb {
  import opened Core
  import opened Samples
  import opened Ring
  import opened Buckets
  import opened LinkHistory

  /** A stored sample with its local sequence number: the gossip delta source. */
  datatype Entry = Entry(num: nat, link: LinkKey, s: Sample)

  datatype Store = Store(byLink: map<LinkKey, Ring>, buckets: map<LinkKey, seq<Bucket>>,
                         recent: seq<Entry>, next: nat)

  const NEW_STORE: Store := Store(map[], map[], [], 1)

  function LinkOf(st: Store, link: LinkKey): LinkState {
    LinkState(if link in st.byLink then st.byLink[link] else EMPTY_RING,
              if link in st.buckets then st.buckets[link] else [])
  }

  predicate Accepts(st: Store, link: LinkKey, s: Sample) {
    !Offer(LinkOf(st, link).ring, s).1.Rejected?
  }

  /** What an accepted offer leaves in the ring and hands to gossip. */
  function Stored(out: Outcome, s: Sample): Sample {
    if out.Merged? then out.now else s
  }

  function Ingested(st: Store, link: LinkKey, s: Sample): Store {
    var l := LinkOf(st, link);
    var out := Offer(l.ring, s).1;
    if out.Rejected? then st.(byLink := st.byLink[link := l.ring])
    else
      var l' := Accept(l, s);
      Store(st.byLink[link := l'.ring], st.buckets[link := l'.buckets],
            st.recent + [Entry(st.next, link, Stored(out, s))], st.next + 1)
  }

  function MergedDelta(st: Store, delta: seq<(LinkKey, Sample)>): Store
    decreases |delta|
  {
    if delta == [] then st
    else
      var (link, s) := delta[|delta| - 1];
      Ingested(MergedDelta(st, delta[..|delta| - 1]), link, s)
  }

  function PopRecent(recent: seq<Entry>, cut: nat): seq<Entry> {
    if recent != [] && recent[0].s.ts < cut then PopRecent(recent[1..], cut) else recent
  }

  /** Retention. A link's emptied ring stays, its floor keeping the pruned history
      out; a link without buckets leaves the bucket map. */
  function Pruned(st: Store, rawCut: nat, aggCut: nat): Store {
    Store(map k | k in st.byLink :: PruneRing(st.byLink[k], rawCut),
          map k | k in st.buckets && Expire(st.buckets[k], aggCut) != [] :: Expire(st.buckets[k], aggCut),
          PopRecent(st.recent, rawCut), st.next)
  }

  /** Retention only takes entries older than the cut off the delta source, and stops
      at the first that is not. */
  lemma {:induction false} PopTakesOnlyOld(recent: seq<Entry>, cut: nat)
    ensures var kept := PopRecent(recent, cut);
            && |kept| <= |recent| && kept == recent[|recent| - |kept|..]
            && (forall i :: 0 <= i < |recent| - |kept| ==> recent[i].s.ts < cut)
            && (kept != [] ==> cut <= kept[0].s.ts)
  {
    if recent != [] && recent[0].s.ts < cut {
      var rest := recent[1..];
      PopTakesOnlyOld(rest, cut);
      var kept := PopRecent(rest, cut);
      forall i | 0 <= i < |recent| - |kept| ensures recent[i].s.ts < cut {
        assert i > 0 ==> rest[i - 1] == recent[i];
      }
    }
  }

  // ── A store is its links' histories ──────────────────────────────────────

  datatype StoreEvent = Append(link: LinkKey, s: Sample) | Retention(rawCut: nat, aggCut: nat)

  function RunStore(events: seq<StoreEvent>): Store
    decreases |events|
  {
    if events == [] then NEW_STORE
    else
      var st := RunStore(events[..|events| - 1]);
      match events[|events| - 1]
      case Append(link, s) => Ingested(st, link, s)
      case Retention(rawCut, aggCut) => Pruned(st, rawCut, aggCut)
  }

  /** What one link sees of a run. */
  function Seen(events: seq<StoreEvent>, link: LinkKey): seq<Event>
    decreases |events|
  {
    if events == [] then []
    else
      var before := Seen(events[..|events| - 1], link);
      match events[|events| - 1]
      case Append(k, s) => if k == link then before + [Ingest(s)] else before
      case Retention(rawCut, aggCut) => before + [Prune(rawCut, aggCut)]
  }

  lemma IngestLink(st: Store, k: LinkKey, s: Sample, link: LinkKey)
    ensures LinkOf(Ingested(st, k, s), link) == if k == link then Accept(LinkOf(st, link), s) else LinkOf(st, link)
  {
  }

  lemma RejectedIsSame(r: Ring, s: Sample)
    requires Offer(r, s).1.Rejected?
    ensures Offer(r, s).0 == r
  {
  }

  lemma PruneLink(st: Store, rawCut: nat, aggCut: nat, link: LinkKey)
    ensures LinkOf(Pruned(st, rawCut, aggCut), link) == Retain(LinkOf(st, link), rawCut, aggCut)
  {
  }

  /** Links do not disturb each other: each evolves as its own run of ingests and
      prunes, so all that LinkHistory proves holds of every link of the store. */
  lemma {:induction false} LinksAreIndependent(events: seq<StoreEvent>, link: LinkKey)
    ensures LinkOf(RunStore(events), link) == Run(Seen(events, link))
    decreases |events|
  {
    if events != [] {
      var front := events[..|events| - 1];
      LinksAreIndependent(front, link);
      match events[|events| - 1]
      case Append(k, s) =>
        IngestLink(RunStore(front), k, s, link);
        RunMore(Seen(front, link), Ingest(s));
      case Retention(rawCut, aggCut) =>
        PruneLink(RunStore(front), rawCut, aggCut, link);
        RunMore(Seen(front, link), Prune(rawCut, aggCut));
    }
  }

  // ── In place ─────────────────────────────────────────────────────────────

  function Updated(b: Bucket, s: Sample, prev: Option<Sample>): Bucket {
    if prev.Some? then b.MergeInto(s, prev.value) else b.Add(s)
  }

  /** Where the fold puts the sample, by position. */
  lemma {:induction false} FoldAtPosition(bs: seq<Bucket>, s: Sample, prev: Option<Sample>, pos: nat)
    requires pos <= |bs|
    requires forall i :: 0 <= i < pos ==> bs[i].start < BucketOf(s.ts)
    requires pos < |bs| ==> BucketOf(s.ts) <= bs[pos].start
    ensures Fold(bs, s, prev)
         == if pos < |bs| && bs[pos].start == BucketOf(s.ts)
            then bs[pos := Updated(bs[pos], s, prev)]
            else bs[..pos] + [NEW_BUCKET.Add(s)] + bs[pos..]
    decreases |bs|
  {
    hide Bucket.Add, Bucket.MergeInto, BucketOf;
    if pos > 0 {
      assert pos < |bs| ==> bs[1..][pos - 1] == bs[pos];
      FoldAtPosition(bs[1..], s, prev, pos - 1);
      ConsSplice(bs, NEW_BUCKET.Add(s), pos);
      if pos < |bs| {
        ConsUpdate(bs, Updated(bs[pos], s, prev), pos);
      }
    } else if bs == [] {
    } else {
      assert bs[..0] == [];
      assert bs[0 := Updated(bs[0], s, prev)] == [Updated(bs[0], s, prev)] + bs[1..];
    }
  }

  lemma ConsSplice<T>(xs: seq<T>, x: T, pos: nat)
    requires 0 < pos <= |xs|
    ensures [xs[0]] + (xs[1..][..pos - 1] + [x] + xs[1..][pos - 1..]) == xs[..pos] + [x] + xs[pos..]
  {
  }

  lemma ConsUpdate<T>(xs: seq<T>, x: T, pos: nat)
    requires 0 < pos < |xs|
    ensures [xs[0]] + xs[1..][pos - 1 := x] == xs[pos := x]
  {
  }

  lemma PositionIsUnique(samples: seq<Sample>, ts: nat, pos: nat)
    requires pos <= |samples|
    requires forall i :: 0 <= i < pos ==> samples[i].ts < ts
    requires pos < |samples| ==> ts <= samples[pos].ts
    ensures PartitionPoint(samples, ts) == pos
  {
  }

  class Tsdb {
    var byLink: map<LinkKey, Ring>
    var buckets: map<LinkKey, seq<Bucket>>
    var recent: seq<Entry>
    var next: nat
    /** Highest local sample number each peer has been sent. */
    var sent: map<string, nat>
    const rawRetention: nat
    const aggRetention: nat

    ghost function Contents(): Store
      reads this
    {
      Store(byLink, buckets, recent, next)
    }

    constructor (rawRetention: nat, aggRetention: nat)
      ensures Contents() == NEW_STORE && sent == map[]
      ensures this.rawRetention == rawRetention && this.aggRetention == aggRetention
    {
      byLink, buckets, recent, next, sent := map[], map[], [], 1, map[];
      this.rawRetention, this.aggRetention := rawRetention, aggRetention;
    }

    /** `ingest`: true when the sample changed the ring. */
    method Ingest(link: LinkKey, s: Sample) returns (changed: bool)
      modifies this`byLink, this`buckets, this`recent, this`next
      ensures changed == Accepts(old(Contents()), link, s)
      ensures Contents() == Ingested(old(Contents()), link, s)
    {
      hide Offer, Fold, MergedWith;
      var ring := if link in byLink then byLink[link] else EMPTY_RING;
      var out;
      ghost var was := ring;
      ring, out := OfferInPlace(ring, s);
      byLink := byLink[link := ring];
      if out.Rejected? {
        RejectedIsSame(was, s);
        return false;
      }
      var stored := if out.Merged? then out.now else s;
      var bs := if link in buckets then buckets[link] else [];
      bs := FoldInPlace(bs, stored, if out.Merged? then Some(out.prev) else None);
      buckets := buckets[link := bs];

      recent := recent + [Entry(next, link, stored)];
      next := next + 1;
      return true;
    }

    /** The ring half of `ingest`. */
    static method OfferInPlace(r: Ring, s: Sample) returns (ring: Ring, out: Outcome)
      ensures (ring, out) == Offer(r, s)
    {
      ring := r;
      if s.ts <= ring.floor {
        return ring, Rejected;
      }
      var pos := 0;
      while pos < |ring.samples| && ring.samples[pos].ts < s.ts
        invariant 0 <= pos <= |ring.samples|
        invariant forall i :: 0 <= i < pos ==> ring.samples[i].ts < s.ts
      {
        pos := pos + 1;
      }
      PositionIsUnique(ring.samples, s.ts, pos);
      if pos < |ring.samples| && ring.samples[pos].ts == s.ts {
        var prev := ring.samples[pos];
        var merged := MergedWith(prev, s);
        if merged == prev {
          return ring, Rejected;
        }
        return ring.(samples := ring.samples[pos := merged]), Merged(prev, merged);
      }
      if pos == 0 && |ring.samples| >= RAW_RING_CAP {
        return ring, Rejected;
      }
      ring := ring.(samples := InsertAt(ring.samples, pos, s));
      if |ring.samples| > RAW_RING_CAP {
        ring := Ring(ring.samples[1..], Max(ring.floor, ring.samples[0].ts));
      }
      return ring, Inserted;
    }

    /** The bucket half of `ingest`. */
    static method FoldInPlace(bs: seq<Bucket>, s: Sample, prev: Option<Sample>) returns (out: seq<Bucket>)
      ensures out == Fold(bs, s, prev)
    {
      var k, pos := BucketOf(s.ts), 0;
      while pos < |bs| && bs[pos].start < k
        invariant 0 <= pos <= |bs|
        invariant forall i :: 0 <= i < pos ==> bs[i].start < k
      {
        pos := pos + 1;
      }
      FoldAtPosition(bs, s, prev, pos);
      if pos == |bs| || bs[pos].start != k {
        out := bs[..pos] + [NEW_BUCKET.Add(s)] + bs[pos..];
      } else if prev.Some? {
        out := bs[pos := bs[pos].MergeInto(s, prev.value)];
      } else {
        out := bs[pos := bs[pos].Add(s)];
      }
    }

    /** `merge_delta`: a peer's samples, ingested in order. */
    method MergeDelta(delta: seq<(LinkKey, Sample)>)
      modifies this`byLink, this`buckets, this`recent, this`next
      ensures Contents() == MergedDelta(old(Contents()), delta)
    {
      for i := 0 to |delta|
        invariant Contents() == MergedDelta(old(Contents()), delta[..i])
      {
        var _ := Ingest(delta[i].0, delta[i].1);
        assert delta[..i + 1][..i] == delta[..i];
      }
      assert delta[..|delta|] == delta;
    }

    /** `take_delta`: the oldest entries after the watermark, at most `limit` of
        them, and the number of the last one taken. */
    method TakeDelta(after: nat, limit: nat) returns (out: seq<Entry>, last: nat)
      ensures out == Delta(recent, after, limit) && last == LastOf(out, after)
    {
      var start := 0;
      while start < |recent| && recent[start].num <= after
        invariant 0 <= start <= |recent|
        invariant forall i :: 0 <= i < start ==> recent[i].num <= after
      {
        start := start + 1;
      }
      StartOfDelta(recent, after, start);
      var n := Min(|recent| - start, limit);
      out, last := [], after;
      assert Delta(recent, after, limit) == recent[start..start + n];
      hide StartAfter, Delta;
      for i := start to start + n
        invariant out == recent[start..i]
        invariant last == LastOf(out, after)
      {
        assert recent[start..i + 1] == recent[start..i] + [recent[i]];
        last := recent[i].num;
        out := out + [recent[i]];
      }
    }

    method SentWatermark(peer: string) returns (mark: nat)
      ensures mark == if peer in sent then sent[peer] else 0
    {
      mark := if peer in sent then sent[peer] else 0;
    }

    method NoteSent(peer: string, watermark: nat)
      modifies this`sent
      ensures sent == old(sent)[peer := watermark]
    {
      sent := sent[peer := watermark];
    }

    /** `prune`: drop what retention no longer keeps. */
    method Prune(now: nat)
      modifies this`byLink, this`buckets, this`recent
      ensures Contents() == Pruned(old(Contents()), SatSub(now, rawRetention), SatSub(now, aggRetention))
    {
      var rawCut, aggCut := SatSub(now, rawRetention), SatSub(now, aggRetention);
      PruneRings(rawCut);
      PruneBuckets(aggCut);
      while recent != [] && recent[0].s.ts < rawCut
        invariant byLink == Pruned(old(Contents()), rawCut, aggCut).byLink
        invariant buckets == Pruned(old(Contents()), rawCut, aggCut).buckets
        invariant PopRecent(recent, rawCut) == PopRecent(old(recent), rawCut)
        decreases |recent|
      {
        recent := recent[1..];
      }
    }

    method PruneRings(cut: nat)
      modifies this`byLink
      ensures byLink == map k | k in old(byLink) :: PruneRing(old(byLink)[k], cut)
    {
      var keys := byLink.Keys;
      while keys != {}
        invariant keys <= byLink.Keys == old(byLink).Keys
        invariant forall k :: k in byLink ==>
            byLink[k] == if k in keys then old(byLink)[k] else PruneRing(old(byLink)[k], cut)
        decreases |keys|
      {
        var k :| k in keys;
        var ring := PopOldSamples(byLink[k], cut);
        byLink := byLink[k := ring];
        keys := keys - {k};
      }
    }

    method PruneBuckets(cut: nat)
      modifies this`buckets
      ensures buckets == map k | k in old(buckets) && Expire(old(buckets)[k], cut) != []
                                 :: Expire(old(buckets)[k], cut)
    {
      var links := buckets.Keys;
      while links != {}
        invariant links <= buckets.Keys <= old(buckets).Keys
        invariant forall k :: k in buckets ==>
            buckets[k] == if k in links then old(buckets)[k] else Expire(old(buckets)[k], cut)
        invariant forall k :: k in old(buckets) && k !in links ==>
            (k in buckets <==> Expire(old(buckets)[k], cut) != [])
        decreases |links|
      {
        var k :| k in links;
        var bs := PopOldBuckets(buckets[k], cut);
        buckets := if bs == [] then buckets - {k} else buckets[k := bs];
        links := links - {k};
      }
    }

    static method PopOldSamples(r: Ring, cut: nat) returns (out: Ring)
      ensures out == PruneRing(r, cut)
    {
      out := r;
      while out.samples != [] && out.samples[0].ts < cut
        invariant PruneRing(out, cut) == PruneRing(r, cut)
        decreases |out.samples|
      {
        out := Ring(out.samples[1..], Max(out.floor, out.samples[0].ts));
      }
    }

    static method PopOldBuckets(bs: seq<Bucket>, cut: nat) returns (out: seq<Bucket>)
      ensures out == Expire(bs, cut)
    {
      out := bs;
      while out != [] && out[0].start < cut
        invariant Expire(out, cut) == Expire(bs, cut)
        decreases |out|
      {
        out := out[1..];
      }
    }
  }

  // ── The gossip delta ─────────────────────────────────────────────────────

  /** Entries are numbered in order, below the next number. */
  ghost predicate Numbered(recent: seq<Entry>, next: nat) {
    && (forall i, j :: 0 <= i < j < |recent| ==> recent[i].num < recent[j].num)
    && (forall i :: 0 <= i < |recent| ==> 0 < recent[i].num < next)
  }

  function StartAfter(recent: seq<Entry>, after: nat): (start: nat)
    ensures start <= |recent|
  {
    if recent == [] || after < recent[0].num then 0 else 1 + StartAfter(recent[1..], after)
  }

  lemma {:induction false} StartOfDelta(recent: seq<Entry>, after: nat, start: nat)
    requires start <= |recent|
    requires forall i :: 0 <= i < start ==> recent[i].num <= after
    requires start < |recent| ==> after < recent[start].num
    ensures StartAfter(recent, after) == start
    decreases |recent|
  {
    if start > 0 {
      StartOfDelta(recent[1..], after, start - 1);
    }
  }

  function Delta(recent: seq<Entry>, after: nat, limit: nat): seq<Entry> {
    var start := StartAfter(recent, after);
    recent[start..start + Min(|recent| - start, limit)]
  }

  function LastOf(delta: seq<Entry>, after: nat): nat {
    if delta == [] then after else delta[|delta| - 1].num
  }

  lemma {:induction false} StartSplits(recent: seq<Entry>, after: nat, next: nat)
    requires Numbered(recent, next)
    ensures var start := StartAfter(recent, after);
            && (forall i :: 0 <= i < start ==> recent[i].num <= after)
            && (forall i :: start <= i < |recent| ==> after < recent[i].num)
    decreases |recent|
  {
    if recent != [] && recent[0].num <= after {
      var rest := recent[1..];
      assert forall i :: 0 <= i < |rest| ==> rest[i] == recent[i + 1];
      StartSplits(rest, after, next);
      forall i | 0 <= i < StartAfter(recent, after) ensures recent[i].num <= after {
        assert i > 0 ==> rest[i - 1] == recent[i];
      }
    }
  }

  /** A delta is exactly the entries numbered after the watermark up to its last, in
      order, and all of them unless it is full; it moves the watermark whenever anything
      newer is kept. */
  lemma DeltaIsTheRange(recent: seq<Entry>, next: nat, after: nat, limit: nat)
    requires Numbered(recent, next)
    ensures var delta := Delta(recent, after, limit);
            var last := LastOf(delta, after);
            && |delta| <= limit && after <= last
            && (forall e :: e in delta <==> e in recent && after < e.num <= last)
            && (|delta| < limit ==> forall e :: e in recent && after < e.num ==> e in delta)
            && (forall i, j :: 0 <= i < j < |delta| ==> delta[i].num < delta[j].num)
            && (limit > 0 && (exists e :: e in recent && after < e.num) ==> after < last)
            && (last < next || delta == [])
  {
    hide Delta, LastOf, Numbered;
    DeltaMembers(recent, next, after, limit);
    DeltaMissesNothing(recent, next, after, limit);
    DeltaMoves(recent, next, after, limit);
  }

  lemma DeltaMembers(recent: seq<Entry>, next: nat, after: nat, limit: nat)
    requires Numbered(recent, next)
    ensures var delta := Delta(recent, after, limit);
            forall e :: e in delta <==> e in recent && after < e.num <= LastOf(delta, after)
  {
    StartSplits(recent, after, next);
    var start, delta := StartAfter(recent, after), Delta(recent, after, limit);
    if delta != [] {
      assert delta[|delta| - 1] == recent[start + |delta| - 1];
    }
    forall e ensures e in delta <==> e in recent && after < e.num <= LastOf(delta, after) {
      if e in delta {
        var i :| 0 <= i < |delta| && delta[i] == e;
        assert recent[start + i] == e;
      }
      if e in recent && after < e.num <= LastOf(delta, after) {
        var i :| 0 <= i < |recent| && recent[i] == e;
        assert delta[i - start] == e;
      }
    }
  }

  lemma DeltaMoves(recent: seq<Entry>, next: nat, after: nat, limit: nat)
    requires Numbered(recent, next)
    ensures var delta := Delta(recent, after, limit);
            var last := LastOf(delta, after);
            && |delta| <= limit && after <= last
            && (limit > 0 && (exists e :: e in recent && after < e.num) ==> after < last)
            && (last < next || delta == [])
  {
    StartSplits(recent, after, next);
    var start, delta := StartAfter(recent, after), Delta(recent, after, limit);
    if delta != [] {
      assert delta[|delta| - 1] == recent[start + |delta| - 1];
    }
  }

  lemma DeltaMissesNothing(recent: seq<Entry>, next: nat, after: nat, limit: nat)
    requires Numbered(recent, next)
    ensures var delta := Delta(recent, after, limit);
            && (|delta| < limit ==> forall e :: e in recent && after < e.num ==> e in delta)
            && (forall i, j :: 0 <= i < j < |delta| ==> delta[i].num < delta[j].num)
  {
    StartSplits(recent, after, next);
    var start, delta := StartAfter(recent, after), Delta(recent, after, limit);
    assert forall i :: 0 <= i < |delta| ==> delta[i] == recent[start + i];
    if |delta| < limit {
      forall e | e in recent && after < e.num ensures e in delta {
        var i :| 0 <= i < |recent| && recent[i] == e;
        assert delta[i - start] == e;
      }
    }
  }
}
