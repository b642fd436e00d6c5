/** Sixty-second aggregates (crates/controller/src/tsdb.rs, `DimAgg` and `Bucket`). */
module Buckets {
  import opened Core
  import opened Samples

  const BUCKET_SECS: nat := 60

  /** Running count, sum and extremes of one dimension. */
  datatype DimAgg = DimAgg(n: nat, sum: real, min: real, max: real) {
    function Merge(v: real): DimAgg {
      if n == 0 then DimAgg(1, v, v, v)
      else DimAgg(n + 1, sum + v, MinReal(min, v), MaxReal(max, v))
    }
  }

  const ZERO_AGG: DimAgg := DimAgg(0, 0.0, 0.0, 0.0)

  /** What a bucket counts: a dimension, or probe reports (`n` and `util`). */
  datatype Track = OfDim(d: Dim) | Probes

  predicate Carries(x: Sample, t: Track) {
    match t
    case OfDim(d) => d in x.dims
    case Probes => x.IsProbe()
  }

  function ValueOf(x: Sample, t: Track): real
    requires Carries(x, t)
  {
    match t
    case OfDim(d) => x.dims[d]
    case Probes => x.util
  }

  /** A dimension without an entry in `dims` has the default aggregate. `probes`
      counts the raw samples folded in. */
  datatype Bucket = Bucket(start: nat, probes: nat, util: DimAgg, dims: map<Dim, DimAgg>) {
    function Agg(d: Dim): DimAgg { if d in dims then dims[d] else ZERO_AGG }

    function TrackAgg(t: Track): DimAgg {
      match t
      case OfDim(d) => Agg(d)
      case Probes => util
    }

    /** Every dimension `s` has that the counted version lacked. */
    function AddDims(s: Sample, already: Sample): Bucket {
      this.(dims := map d | d in dims.Keys + s.dims.Keys ::
                      if d in s.dims && d !in already.dims then Agg(d).Merge(s.dims[d]) else Agg(d))
    }

    function CountProbe(s: Sample): Bucket {
      this.(probes := probes + 1, util := util.Merge(s.util))
    }

    function Add(s: Sample): Bucket {
      var at := this.(start := s.ts - s.ts % BUCKET_SECS);
      (if s.IsProbe() then at.CountProbe(s) else at).AddDims(s, BLANK)
    }

    function MergeInto(s: Sample, already: Sample): Bucket {
      (if s.IsProbe() && !already.IsProbe() then CountProbe(s) else this).AddDims(s, already)
    }
  }

  const BLANK: Sample := Sample(0, map[], map[], 0.0, 0)

  const NEW_BUCKET: Bucket := Bucket(0, 0, ZERO_AGG, map[])

  function BucketOf(ts: nat): nat { ts - ts % BUCKET_SECS }

  // ── One link's buckets, ascending ────────────────────────────────────────

  predicate Ascending(bs: seq<Bucket>) {
    forall i, j :: 0 <= i < j < |bs| ==> bs[i].start < bs[j].start
  }

  /** Fold an accepted sample into its bucket, starting one when there is none.
      `prev` is the counted version of a same-second merge. */
  function Fold(bs: seq<Bucket>, s: Sample, prev: Option<Sample>): seq<Bucket> {
    var k := BucketOf(s.ts);
    if bs == [] || k < bs[0].start then [NEW_BUCKET.Add(s)] + bs
    else if bs[0].start == k then
      [if prev.Some? then bs[0].MergeInto(s, prev.value) else bs[0].Add(s)] + bs[1..]
    else [bs[0]] + Fold(bs[1..], s, prev)
  }

  /** Retention: the buckets before the cut go. */
  function Expire(bs: seq<Bucket>, cut: nat): seq<Bucket> {
    if bs != [] && bs[0].start < cut then Expire(bs[1..], cut) else bs
  }

  /** The aggregate a bucket list holds for one bucket start. */
  function AggAt(bs: seq<Bucket>, k: nat, t: Track): DimAgg {
    if bs == [] then ZERO_AGG
    else if bs[0].start == k then bs[0].TrackAgg(t)
    else AggAt(bs[1..], k, t)
  }

  function ProbesAt(bs: seq<Bucket>, k: nat): nat {
    if bs == [] then 0
    else if bs[0].start == k then bs[0].probes
    else ProbesAt(bs[1..], k)
  }

  /** What one fold adds to one track: the new value, unless it was counted. */
  predicate Adds(s: Sample, prev: Option<Sample>, t: Track) {
    Carries(s, t) && (prev.Some? ==> !Carries(prev.value, t))
  }

  lemma AddToBucket(b: Bucket, s: Sample, t: Track)
    ensures b.Add(s).start == BucketOf(s.ts)
    ensures b.Add(s).TrackAgg(t)
         == if Adds(s, None, t) then b.TrackAgg(t).Merge(ValueOf(s, t)) else b.TrackAgg(t)
    ensures b.Add(s).probes == b.probes + (if s.IsProbe() then 1 else 0)
  {
  }

  lemma MergeToBucket(b: Bucket, s: Sample, prev: Sample, t: Track)
    ensures b.MergeInto(s, prev).start == b.start
    ensures b.MergeInto(s, prev).TrackAgg(t)
         == if Adds(s, Some(prev), t) then b.TrackAgg(t).Merge(ValueOf(s, t)) else b.TrackAgg(t)
    ensures b.MergeInto(s, prev).probes == b.probes + (if s.IsProbe() && !prev.IsProbe() then 1 else 0)
  {
  }

  lemma NoBucketBefore(bs: seq<Bucket>, k: nat, t: Track)
    requires Ascending(bs)
    requires bs != [] ==> k < bs[0].start
    ensures AggAt(bs, k, t) == ZERO_AGG && ProbesAt(bs, k) == 0
  {
  }

  predicate HasAt(bs: seq<Bucket>, k: nat) {
    bs != [] && (bs[0].start == k || HasAt(bs[1..], k))
  }

  lemma AscendingTail(bs: seq<Bucket>)
    requires Ascending(bs) && bs != []
    ensures Ascending(bs[1..])
    ensures bs[1..] != [] ==> bs[0].start < bs[1..][0].start
  {
  }

  lemma AscendingCons(b: Bucket, bs: seq<Bucket>)
    requires Ascending(bs) && (bs != [] ==> b.start < bs[0].start)
    ensures Ascending([b] + bs)
  {
  }

  /** Folding keeps the list ascending and gives the sample's bucket a place. */
  lemma {:induction false} FoldAscends(bs: seq<Bucket>, s: Sample, prev: Option<Sample>)
    requires Ascending(bs)
    ensures var out := Fold(bs, s, prev);
            && Ascending(out) && HasAt(out, BucketOf(s.ts)) && out != []
            && out[0].start == if bs == [] then BucketOf(s.ts) else Min(bs[0].start, BucketOf(s.ts))
  {
    hide Bucket.AddDims, Bucket.CountProbe;
    var k := BucketOf(s.ts);
    AddToBucket(NEW_BUCKET, s, Probes);
    if bs == [] || k < bs[0].start {
      AscendingCons(NEW_BUCKET.Add(s), bs);
    } else {
      AscendingTail(bs);
      if bs[0].start == k {
        AddToBucket(bs[0], s, Probes);
        if prev.Some? {
          MergeToBucket(bs[0], s, prev.value, Probes);
        }
        AscendingCons(if prev.Some? then bs[0].MergeInto(s, prev.value) else bs[0].Add(s), bs[1..]);
      } else {
        FoldAscends(bs[1..], s, prev);
        AscendingCons(bs[0], Fold(bs[1..], s, prev));
      }
    }
  }

  /** A fold touches its own bucket only, merging in the values the counted
      version lacked; a missing bucket starts from nothing. */
  lemma {:induction false} FoldEffect(bs: seq<Bucket>, s: Sample, prev: Option<Sample>, t: Track, k: nat)
    requires Ascending(bs)
    ensures k != BucketOf(s.ts) ==>
              && AggAt(Fold(bs, s, prev), k, t) == AggAt(bs, k, t)
              && ProbesAt(Fold(bs, s, prev), k) == ProbesAt(bs, k)
              && HasAt(Fold(bs, s, prev), k) == HasAt(bs, k)
    ensures k == BucketOf(s.ts) ==>
              var was := if HasAt(bs, k) then prev else None;
              && AggAt(Fold(bs, s, prev), k, t)
                 == (if Adds(s, was, t) then AggAt(bs, k, t).Merge(ValueOf(s, t)) else AggAt(bs, k, t))
              && ProbesAt(Fold(bs, s, prev), k)
                 == ProbesAt(bs, k) + (if Adds(s, was, Probes) then 1 else 0)
  {
    hide Bucket.AddDims, Bucket.CountProbe, Bucket.Add, Bucket.MergeInto, Bucket.TrackAgg, Sample.IsProbe;
    var at := BucketOf(s.ts);
    if bs == [] || at < bs[0].start {
      AddToBucket(NEW_BUCKET, s, t);
      NoBucketBefore(bs, at, t);
      if bs != [] {
        NothingBefore(bs, at);
      }
      NewBucketIsEmpty(t);
      assert ([NEW_BUCKET.Add(s)] + bs)[1..] == bs;
    } else {
      AscendingTail(bs);
      if bs[0].start == at {
        AddToBucket(bs[0], s, t);
        if prev.Some? {
          MergeToBucket(bs[0], s, prev.value, t);
        }
        var b := if prev.Some? then bs[0].MergeInto(s, prev.value) else bs[0].Add(s);
        assert ([b] + bs[1..])[1..] == bs[1..];
      } else {
        FoldEffect(bs[1..], s, prev, t, k);
        assert ([bs[0]] + Fold(bs[1..], s, prev))[1..] == Fold(bs[1..], s, prev);
      }
    }
  }

  lemma NewBucketIsEmpty(t: Track)
    ensures NEW_BUCKET.TrackAgg(t) == ZERO_AGG && NEW_BUCKET.probes == 0
  {
  }

  /** Retention keeps exactly the buckets from the cut on. */
  lemma {:induction false} ExpireEffect(bs: seq<Bucket>, cut: nat, t: Track, k: nat)
    requires Ascending(bs)
    ensures Ascending(Expire(bs, cut))
    ensures cut <= k ==> AggAt(Expire(bs, cut), k, t) == AggAt(bs, k, t)
    ensures cut <= k ==> ProbesAt(Expire(bs, cut), k) == ProbesAt(bs, k)
    ensures HasAt(Expire(bs, cut), k) <==> HasAt(bs, k) && cut <= k
  {
    hide Bucket.TrackAgg;
    if bs != [] {
      AscendingTail(bs);
      if bs[0].start < cut {
        ExpireEffect(bs[1..], cut, t, k);
      } else if k < cut {
        NothingBefore(bs, k);
      }
    }
  }

  lemma NothingBefore(bs: seq<Bucket>, k: nat)
    requires Ascending(bs) && bs != [] && k < bs[0].start
    ensures !HasAt(bs, k)
  {
  }

  // ── What an aggregate means ──────────────────────────────────────────────

  function Sum(vs: seq<real>): real
    decreases |vs|
  {
    if vs == [] then 0.0 else Sum(vs[..|vs| - 1]) + vs[|vs| - 1]
  }

  function AggOf(vs: seq<real>): DimAgg
    decreases |vs|
  {
    if vs == [] then ZERO_AGG else AggOf(vs[..|vs| - 1]).Merge(vs[|vs| - 1])
  }

  /** The aggregate of a run of values: its length, its sum, its extremes; and the
      mean lies between the extremes. */
  lemma {:induction false} AggMeaning(vs: seq<real>)
    ensures var a := AggOf(vs);
            && a.n == |vs| && a.sum == Sum(vs)
            && (forall v :: v in vs ==> a.min <= v <= a.max)
            && (vs != [] ==> a.min in vs && a.max in vs && a.min <= a.sum / (a.n as real) <= a.max)
    decreases |vs|
  {
    if vs != [] {
      var front, v := vs[..|vs| - 1], vs[|vs| - 1];
      assert vs == front + [v];
      AggMeaning(front);
      var f, a := AggOf(front), AggOf(vs);
      if front == [] {
        assert vs == [v] && Sum(front) == 0.0;
      } else {
        assert forall x :: x in vs <==> x in front || x == v;
        MeanBetween(f.n, f.sum, f.min, f.max, v);
      }
    }
  }

  lemma MeanBetween(n: nat, sum: real, lo: real, hi: real, v: real)
    requires n > 0 && lo <= sum / (n as real) <= hi
    ensures var m := (n + 1) as real;
            MinReal(lo, v) <= (sum + v) / m <= MaxReal(hi, v)
  {
    var k, m := n as real, (n + 1) as real;
    var a, b := MinReal(lo, v), MaxReal(hi, v);
    ProductBound(lo, sum, hi, k);
    Scale(a, lo, k);
    Scale(hi, b, k);
    assert m * a == k * a + a && m * b == k * b + b;
    QuotientBound(a, sum + v, b, m);
  }

  lemma Scale(a: real, b: real, k: real)
    requires a <= b && k > 0.0
    ensures k * a <= k * b
  {
  }

  lemma ProductBound(lo: real, sum: real, hi: real, k: real)
    requires k > 0.0 && lo <= sum / k <= hi
    ensures k * lo <= sum <= k * hi
  {
  }

  lemma QuotientBound(a: real, sum: real, b: real, m: real)
    requires m > 0.0 && m * a <= sum <= m * b
    ensures a <= sum / m <= b
  {
  }
}
