/** Without pruning, a ring is a function of the set of samples offered to it:
    the newest RAW_RING_CAP distinct seconds, each holding the join of everything
    offered for that second. Order and repetition of the offers do not matter. */
module RingTheorem {
  import opened Core
  import opened Samples
  import opened Ring

  /** The ring after these offers, in order. */
  function OfferAll(offers: seq<Sample>): Ring
    decreases |offers|
  {
    if offers == [] then EMPTY_RING
    else Offer(OfferAll(offers[..|offers| - 1]), offers[|offers| - 1]).0
  }

  /** The distinct seconds offered. Second 0 is never accepted: an empty ring's
      floor is 0. */
  function OfferedTimes(offers: seq<Sample>): set<nat> {
    set i | 0 <= i < |offers| && offers[i].ts > 0 :: offers[i].ts
  }

  /** Samples of the same second agree on every dimension both carry. */
  ghost predicate Agree(s: Sample, o: Sample) {
    s.ts == o.ts ==>
      && (forall d :: d in s.dims && d in o.dims ==> s.dims[d] == o.dims[d])
      && (forall m :: m in s.mark && m in o.mark ==> s.mark[m] == o.mark[m])
  }

  ghost predicate AllAgree(offers: seq<Sample>) {
    forall s, o :: s in offers && o in offers ==> Agree(s, o)
  }

  /** `t` holds the `cap` newest members of `all`, or all of them. */
  ghost predicate IsNewest(all: set<nat>, t: set<nat>, cap: nat) {
    && t <= all
    && |t| == (if |all| < cap then |all| else cap)
    && forall x, y :: x in t && y in all && y !in t ==> y < x
  }

  /** `x` carries exactly what the offers of its second carry between them. */
  ghost predicate IsJoin(offers: seq<Sample>, x: Sample) {
    && (forall d :: d in x.dims <==> exists s :: s in offers && s.ts == x.ts && d in s.dims)
    && (forall m :: m in x.mark <==> exists s :: s in offers && s.ts == x.ts && m in s.mark)
    && (forall s :: s in offers && s.ts == x.ts ==> Covers(x, s))
    && (exists s :: s in offers && s.ts == x.ts && s.util == x.util)
    && (exists s :: s in offers && s.ts == x.ts && s.state == x.state)
  }

  ghost predicate Covers(x: Sample, s: Sample) {
    && (forall d :: d in s.dims ==> d in x.dims && x.dims[d] == s.dims[d])
    && (forall m :: m in s.mark ==> m in x.mark && x.mark[m] == s.mark[m])
    && s.util <= x.util && s.state <= x.state
  }

  ghost predicate IsCanonical(offers: seq<Sample>, samples: seq<Sample>) {
    && Sorted(samples)
    && IsNewest(OfferedTimes(offers), Times(samples), RAW_RING_CAP)
    && forall x :: x in samples ==> IsJoin(offers, x)
  }

  // ── The ring is canonical ────────────────────────────────────────────────

  lemma {:induction false} RingIsNewestSeconds(offers: seq<Sample>)
    requires AllAgree(offers)
    ensures var r := OfferAll(offers);
            && RingOk(r) && IsCanonical(offers, r.samples)
            && (r.floor > 0 ==> |r.samples| == RAW_RING_CAP)
    decreases |offers|
  {
    if offers == [] {
    } else {
      var before, s := offers[..|offers| - 1], offers[|offers| - 1];
      forall a, b | a in before && b in before ensures Agree(a, b) {
        assert a in offers && b in offers;
      }
      RingIsNewestSeconds(before);
      assert offers == before + [s];
      var r := OfferAll(before);
      OfferKeepsNewest(before, r, s);
      OfferKeepsJoins(before, r, s);
      FloorMeansFull(r, s);
      OfferEffect(r, s);
    }
  }

  lemma FloorMeansFull(r: Ring, s: Sample)
    requires RingOk(r) && (r.floor > 0 ==> |r.samples| == RAW_RING_CAP)
    ensures Offer(r, s).0.floor > 0 ==> |Offer(r, s).0.samples| == RAW_RING_CAP
  {
  }

  /** A sorted run of samples has one second per sample. */
  lemma {:induction false} TimesSize(samples: seq<Sample>)
    requires Sorted(samples)
    ensures |Times(samples)| == |samples|
    decreases |samples|
  {
    if samples != [] {
      DropFirst(samples);
      TimesSize(samples[1..]);
      assert samples[0].ts in Times(samples);
    }
  }

  lemma OfferedAfter(before: seq<Sample>, s: Sample)
    ensures OfferedTimes(before + [s]) == OfferedTimes(before) + (if s.ts > 0 then {s.ts} else {})
  {
    var offers := before + [s];
    assert offers[|before|] == s;
    assert forall i :: 0 <= i < |before| ==> offers[i] == before[i];
  }

  lemma OfferKeepsNewest(before: seq<Sample>, r: Ring, s: Sample)
    requires RingOk(r) && (r.floor > 0 ==> |r.samples| == RAW_RING_CAP)
    requires IsNewest(OfferedTimes(before), Times(r.samples), RAW_RING_CAP)
    ensures IsNewest(OfferedTimes(before + [s]), Times(Offer(r, s).0.samples), RAW_RING_CAP)
  {
    hide Offer, MergedWith, OfferedTimes, Times, Sorted;
    OfferEffect(r, s);
    OfferedAfter(before, s);
    TimesSize(r.samples);
    TimesAreMembers(r.samples);
    var all, t := OfferedTimes(before), Times(r.samples);
    var (r', out) := Offer(r, s);
    match out
    case Rejected =>
      RefusedSecond(r, s, all);
    case Merged(prev, now) =>
      assert s.ts in t;
      if s.ts > 0 {
        assert all + {s.ts} == all;
      }
    case Inserted =>
      NewSecondIsNewest(r, s, r', all);
  }

  lemma RefusedSecond(r: Ring, s: Sample, all: set<nat>)
    requires RingOk(r) && (r.floor > 0 ==> |r.samples| == RAW_RING_CAP)
    requires |Times(r.samples)| == |r.samples|
    requires forall t :: t in Times(r.samples) ==> exists x :: x in r.samples && x.ts == t
    requires forall x :: x in r.samples ==> x.ts in Times(r.samples)
    requires RejectStep(r, s) && IsNewest(all, Times(r.samples), RAW_RING_CAP)
    ensures IsNewest(all + (if s.ts > 0 then {s.ts} else {}), Times(r.samples), RAW_RING_CAP)
  {
    hide Times, MergedWith;
    var t := Times(r.samples);
    if s.ts == 0 || s.ts in all {
      assert all + (if s.ts > 0 then {s.ts} else {}) == all;
    } else {
      assert |r.samples| == RAW_RING_CAP;
      SubsetSize(all, all + {s.ts});
      forall x | x in t ensures s.ts < x {
        var m :| m in r.samples && m.ts == x;
        OldestAndFloor(r, m);
      }
    }
  }

  lemma OldestAndFloor(r: Ring, m: Sample)
    requires RingOk(r) && m in r.samples
    ensures r.floor < m.ts && r.samples[0].ts <= m.ts
  {
  }

  lemma NewSecondIsNewest(r: Ring, s: Sample, r': Ring, all: set<nat>)
    requires RingOk(r) && InsertStep(r, s, r')
    requires |Times(r.samples)| == |r.samples|
    requires forall x :: x in r.samples ==> x.ts in Times(r.samples)
    requires IsNewest(all, Times(r.samples), RAW_RING_CAP)
    ensures s.ts > 0 && s.ts !in all
    ensures IsNewest(all + {s.ts}, Times(r'.samples), RAW_RING_CAP)
  {
    hide Times, MergedWith;
    var t := Times(r.samples);
    if |r.samples| < RAW_RING_CAP {
      SameSize(t, all);
    } else {
      var oldest := r.samples[0].ts;
      assert r.samples[0] in r.samples;
      assert oldest in t;
      assert s.ts !in all;
      SubsetSize(t, all);
      forall x | x in t ensures oldest <= x {
        OldestSecond(r.samples, x);
      }
    }
  }

  lemma OldestSecond(samples: seq<Sample>, x: nat)
    requires Sorted(samples) && x in Times(samples)
    ensures samples != [] && samples[0].ts <= x
  {
  }

  lemma SameSize<T>(a: set<T>, b: set<T>)
    requires a <= b && |a| == |b|
    ensures a == b
  {
    assert b == a + (b - a);
    assert |b| == |a| + |b - a|;
  }

  lemma OfferKeepsJoins(before: seq<Sample>, r: Ring, s: Sample)
    requires AllAgree(before + [s]) && RingOk(r)
    requires IsNewest(OfferedTimes(before), Times(r.samples), RAW_RING_CAP)
    requires forall x :: x in r.samples ==> IsJoin(before, x)
    ensures forall x :: x in Offer(r, s).0.samples ==> IsJoin(before + [s], x)
  {
    OfferEffect(r, s);
    TimesSize(r.samples);
    TimesAreMembers(r.samples);
    var (r', out) := Offer(r, s);
    hide Offer, IsJoin, Times, OfferedTimes;
    forall x | x in r'.samples ensures IsJoin(before + [s], x) {
      match out
      case Rejected =>
        RefusedJoin(before, r, s, x);
      case Merged(prev, now) =>
        if x == now {
          MergeIsJoin(before, prev, s);
        } else {
          OtherSecondJoin(before, s, x);
        }
      case Inserted =>
        NewSecondIsNewest(r, s, r', OfferedTimes(before));
        if x == s {
          NotOffered(before, s.ts);
          FirstIsJoin(before, s);
        } else {
          OtherSecondJoin(before, s, x);
        }
    }
  }

  lemma NotOffered(before: seq<Sample>, t: nat)
    requires t > 0 && t !in OfferedTimes(before)
    ensures forall o :: o in before ==> o.ts != t
  {
    forall o | o in before ensures o.ts != t {
      var i :| 0 <= i < |before| && before[i] == o;
    }
  }

  lemma OtherSecondJoin(before: seq<Sample>, s: Sample, x: Sample)
    requires IsJoin(before, x) && x.ts != s.ts
    ensures IsJoin(before + [s], x)
  {
    hide Covers;
    var offers := before + [s];
    assert forall o :: o in offers <==> o in before || o == s;
    assert forall o :: o in before ==> o in offers;
  }

  lemma FirstIsJoin(before: seq<Sample>, s: Sample)
    requires forall o :: o in before ==> o.ts != s.ts
    ensures IsJoin(before + [s], s)
  {
    var offers := before + [s];
    assert s in offers;
    assert forall o :: o in offers <==> o in before || o == s;
  }

  lemma MergeIsJoin(before: seq<Sample>, prev: Sample, s: Sample)
    requires AllAgree(before + [s]) && IsJoin(before, prev) && prev.ts == s.ts
    ensures IsJoin(before + [s], MergedWith(prev, s))
  {
    var offers, now := before + [s], MergedWith(prev, s);
    assert s in offers;
    assert forall o :: o in offers <==> o in before || o == s;
    MergeDims(before, prev, s);
    MergeMarks(before, prev, s);
    forall o | o in offers && o.ts == now.ts ensures Covers(now, o) {
      MergeCovers(before, prev, s, o);
    }
    MergeAttains(before, prev, s);
  }

  lemma MergeDims(before: seq<Sample>, prev: Sample, s: Sample)
    requires IsJoin(before, prev) && prev.ts == s.ts
    ensures forall d :: d in MergedWith(prev, s).dims
              <==> exists o :: o in before + [s] && o.ts == prev.ts && d in o.dims
  {
    hide Covers;
    var offers := before + [s];
    assert s in offers && forall o :: o in offers <==> o in before || o == s;
  }

  lemma MergeMarks(before: seq<Sample>, prev: Sample, s: Sample)
    requires IsJoin(before, prev) && prev.ts == s.ts
    ensures forall m :: m in MergedWith(prev, s).mark
              <==> exists o :: o in before + [s] && o.ts == prev.ts && m in o.mark
  {
    hide Covers;
    var offers := before + [s];
    assert s in offers && forall o :: o in offers <==> o in before || o == s;
  }

  lemma MergeCovers(before: seq<Sample>, prev: Sample, s: Sample, o: Sample)
    requires AllAgree(before + [s]) && IsJoin(before, prev) && prev.ts == s.ts == o.ts
    requires o in before || o == s
    ensures Covers(MergedWith(prev, s), o)
  {
    assert Agree(o, s) by {
      assert o in before + [s] && s in before + [s];
    }
    if o in before {
      assert Covers(prev, o);
    }
  }

  lemma MergeAttains(before: seq<Sample>, prev: Sample, s: Sample)
    requires IsJoin(before, prev) && prev.ts == s.ts
    ensures exists o :: o in before + [s] && o.ts == prev.ts && o.util == MergedWith(prev, s).util
    ensures exists o :: o in before + [s] && o.ts == prev.ts && o.state == MergedWith(prev, s).state
  {
    var offers := before + [s];
    assert s in offers;
    var u :| u in before && u.ts == prev.ts && u.util == prev.util;
    var v :| v in before && v.ts == prev.ts && v.state == prev.state;
    assert u in offers && v in offers;
  }

  lemma RefusedJoin(before: seq<Sample>, r: Ring, s: Sample, x: Sample)
    requires AllAgree(before + [s]) && RingOk(r) && RejectStep(r, s)
    requires x in r.samples && IsJoin(before, x)
    requires forall y, z :: y in r.samples && z in r.samples && y.ts == z.ts ==> y == z
    ensures IsJoin(before + [s], x)
  {
    OldestAndFloor(r, x);
    if x.ts != s.ts {
      OtherSecondJoin(before, s, x);
    } else {
      hide IsJoin, MergedWith;
      var prev :| prev in r.samples && prev.ts == s.ts && MergedWith(prev, s) == prev;
      assert prev == x;
      MergeIsJoin(before, prev, s);
    }
  }

  // ── Canonical rings are unique ───────────────────────────────────────────

  lemma NewestIsUnique(all: set<nat>, a: set<nat>, b: set<nat>, cap: nat)
    requires IsNewest(all, a, cap) && IsNewest(all, b, cap)
    ensures a == b
  {
    forall x, y | x in a && y in b ensures x in b || y in a {
      assert x in all && y in all;
    }
    if a <= b {
      SameSize(a, b);
    } else {
      var x :| x in a && x !in b;
      assert b <= a;
      SameSize(b, a);
    }
  }

  lemma JoinDims(a: seq<Sample>, b: seq<Sample>, x: Sample, y: Sample)
    requires forall s :: s in a <==> s in b
    requires IsJoin(a, x) && IsJoin(b, y) && x.ts == y.ts
    ensures forall d :: d in x.dims ==> d in y.dims && x.dims[d] == y.dims[d]
  {
    forall d | d in x.dims ensures d in y.dims && x.dims[d] == y.dims[d] {
      var s :| s in a && s.ts == x.ts && d in s.dims;
      assert Covers(x, s) && Covers(y, s);
    }
  }

  lemma JoinMarks(a: seq<Sample>, b: seq<Sample>, x: Sample, y: Sample)
    requires forall s :: s in a <==> s in b
    requires IsJoin(a, x) && IsJoin(b, y) && x.ts == y.ts
    ensures forall m :: m in x.mark ==> m in y.mark && x.mark[m] == y.mark[m]
  {
    forall m | m in x.mark ensures m in y.mark && x.mark[m] == y.mark[m] {
      var s :| s in a && s.ts == x.ts && m in s.mark;
      assert Covers(x, s) && Covers(y, s);
    }
  }

  lemma JoinIsUnique(a: seq<Sample>, b: seq<Sample>, x: Sample, y: Sample)
    requires forall s :: s in a <==> s in b
    requires IsJoin(a, x) && IsJoin(b, y) && x.ts == y.ts
    ensures x == y
  {
    JoinDims(a, b, x, y);
    JoinDims(b, a, y, x);
    JoinMarks(a, b, x, y);
    JoinMarks(b, a, y, x);
    MaximaAgree(a, b, x, y);
    hide IsJoin;
    assert x.dims == y.dims && x.mark == y.mark;
  }

  lemma MaximaAgree(a: seq<Sample>, b: seq<Sample>, x: Sample, y: Sample)
    requires forall s :: s in a <==> s in b
    requires IsJoin(a, x) && IsJoin(b, y) && x.ts == y.ts
    ensures x.util == y.util && x.state == y.state
  {
    var u :| u in a && u.ts == x.ts && u.util == x.util;
    var v :| v in b && v.ts == y.ts && v.util == y.util;
    var p :| p in a && p.ts == x.ts && p.state == x.state;
    var q :| q in b && q.ts == y.ts && q.state == y.state;
    assert Covers(y, u) && Covers(x, v) && Covers(y, p) && Covers(x, q);
  }

  /** A strictly sorted run is determined by its members. */
  lemma {:induction false} SortedIsUnique(a: seq<Sample>, b: seq<Sample>)
    requires Sorted(a) && Sorted(b)
    requires forall x :: x in a <==> x in b
    ensures a == b
    decreases |a|
  {
    assert b != [] ==> b[0] in a;
    if a == [] {
    } else {
      assert a[0] in b && b != [];
      assert a[0] == b[0];
      DropFirst(a);
      DropFirst(b);
      SortedIsUnique(a[1..], b[1..]);
      assert a == [a[0]] + a[1..] && b == [b[0]] + b[1..];
    }
  }

  lemma OfferedTimesAreMembers(offers: seq<Sample>)
    ensures forall t :: t in OfferedTimes(offers) <==> exists s :: s in offers && s.ts == t && t > 0
  {
    forall t ensures t in OfferedTimes(offers) <==> exists s :: s in offers && s.ts == t && t > 0 {
      if t in OfferedTimes(offers) {
        var i :| 0 <= i < |offers| && offers[i].ts > 0 && offers[i].ts == t;
        assert offers[i] in offers;
      }
    }
  }

  /** The members of a canonical ring depend only on which samples were offered. */
  lemma CanonicalMembers(a: seq<Sample>, b: seq<Sample>, p: seq<Sample>, q: seq<Sample>)
    requires forall s :: s in a <==> s in b
    requires IsCanonical(a, p) && IsCanonical(b, q)
    ensures forall x :: x in p ==> x in q
  {
    OfferedTimesAreMembers(a);
    OfferedTimesAreMembers(b);
    assert OfferedTimes(a) == OfferedTimes(b);
    hide OfferedTimes;
    NewestIsUnique(OfferedTimes(a), Times(p), Times(q), RAW_RING_CAP);
    TimesAreMembers(p);
    TimesAreMembers(q);
    hide Times, IsNewest, IsJoin;
    forall x | x in p ensures x in q {
      assert x.ts in Times(q);
      var y :| y in q && y.ts == x.ts;
      JoinIsUnique(a, b, x, y);
    }
  }

  /** Two members offered the same samples, in any order and any number of times,
      hold the same ring. */
  lemma RingDependsOnlyOnOffers(a: seq<Sample>, b: seq<Sample>)
    requires forall s :: s in a <==> s in b
    requires AllAgree(a)
    ensures OfferAll(a).samples == OfferAll(b).samples
  {
    assert AllAgree(b);
    RingIsNewestSeconds(a);
    RingIsNewestSeconds(b);
    CanonicalMembers(a, b, OfferAll(a).samples, OfferAll(b).samples);
    CanonicalMembers(b, a, OfferAll(b).samples, OfferAll(a).samples);
    SortedIsUnique(OfferAll(a).samples, OfferAll(b).samples);
  }

  /** Agreement is what two offers need, and all they need, to commute: the later
      arrival wins a disagreement. */
  lemma PairCommutesIffAgree(a: Sample, b: Sample)
    requires a.ts > 0 && b.ts > 0
    ensures OfferAll([a, b]).samples == OfferAll([b, a]).samples <==> Agree(a, b)
  {
    hide OfferAll, AllAgree;
    PairOffered(a, b);
    PairOffered(b, a);
    if Agree(a, b) {
      assert AllAgree([a, b]) by { TwoAgree(a, b); }
      RingDependsOnlyOnOffers([a, b], [b, a]);
    } else if exists d :: d in a.dims && d in b.dims && a.dims[d] != b.dims[d] {
      var d :| d in a.dims && d in b.dims && a.dims[d] != b.dims[d];
      assert OfferAll([a, b]).samples[0].dims[d] == b.dims[d];
      assert OfferAll([b, a]).samples[0].dims[d] == a.dims[d];
    } else {
      var m :| m in a.mark && m in b.mark && a.mark[m] != b.mark[m];
      assert OfferAll([a, b]).samples[0].mark[m] == b.mark[m];
      assert OfferAll([b, a]).samples[0].mark[m] == a.mark[m];
    }
  }

  lemma TwoAgree(a: Sample, b: Sample)
    requires Agree(a, b)
    ensures AllAgree([a, b])
  {
  }

  lemma PairOffered(a: Sample, b: Sample)
    requires a.ts > 0 && b.ts > 0
    ensures a.ts == b.ts ==> OfferAll([a, b]).samples == [MergedWith(a, b)]
  {
    assert [a, b][..1] == [a] && [a][..0] == [];
    assert OfferAll([]) == EMPTY_RING;
    assert PartitionPoint([], a.ts) == 0;
    assert OfferAll([a]) == Ring([a], 0);
    assert OfferAll([a, b]) == Offer(Ring([a], 0), b).0;
    if a.ts == b.ts {
      assert PartitionPoint([a], b.ts) == 0;
      assert [a][0 := MergedWith(a, b)] == [MergedWith(a, b)];
    }
  }
}
