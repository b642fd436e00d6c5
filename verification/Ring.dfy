/** One link's sample ring (crates/controller/src/tsdb.rs, `Ring` and the ring half
    of `ingest`), and what it holds after any offers. */
module Ring {
  import opened Core
  import opened Samples

  /** Two hours of always samples with slack, plus two hours of 10 s blocks. */
  const RAW_RING_CAP: nat := (7200 * 3) / 15 + 7200 / 10

  datatype Ring = Ring(samples: seq<Sample>, floor: nat)

  const EMPTY_RING: Ring := Ring([], 0)

  predicate Sorted(samples: seq<Sample>) {
    forall i, j :: 0 <= i < j < |samples| ==> samples[i].ts < samples[j].ts
  }

  function Times(samples: seq<Sample>): set<nat> {
    set i | 0 <= i < |samples| :: samples[i].ts
  }

  /** `partition_point(|x| x.ts < ts)`. */
  function PartitionPoint(samples: seq<Sample>, ts: nat): (pos: nat)
    ensures pos <= |samples|
    ensures forall i :: 0 <= i < pos ==> samples[i].ts < ts
    ensures pos < |samples| ==> ts <= samples[pos].ts
  {
    if samples == [] || ts <= samples[0].ts then 0
    else
      var rest := PartitionPoint(samples[1..], ts);
      assert forall i :: 1 <= i < rest + 1 ==> samples[i] == samples[1..][i - 1];
      1 + rest
  }

  datatype Outcome = Rejected | Inserted | Merged(prev: Sample, now: Sample)

  function InsertAt(samples: seq<Sample>, pos: nat, s: Sample): seq<Sample>
    requires pos <= |samples|
  {
    samples[..pos] + [s] + samples[pos..]
  }

  /** Offer a sample: rejected at or below the floor, merged into its second, or
      inserted in order with the oldest falling off a full ring. */
  function Offer(r: Ring, s: Sample): (Ring, Outcome) {
    if s.ts <= r.floor then (r, Rejected)
    else
      var pos := PartitionPoint(r.samples, s.ts);
      if pos < |r.samples| && r.samples[pos].ts == s.ts then
        var merged := MergedWith(r.samples[pos], s);
        if merged == r.samples[pos] then (r, Rejected)
        else (r.(samples := r.samples[pos := merged]), Merged(r.samples[pos], merged))
      else if pos == 0 && |r.samples| >= RAW_RING_CAP then (r, Rejected)
      else
        var grown := InsertAt(r.samples, pos, s);
        if |grown| > RAW_RING_CAP
        then (Ring(grown[1..], Max(r.floor, grown[0].ts)), Inserted)
        else (Ring(grown, r.floor), Inserted)
  }

  /** Drop the samples older than the cut, raising the floor to the newest dropped. */
  function PruneRing(r: Ring, cut: nat): Ring
    decreases |r.samples|
  {
    if r.samples != [] && r.samples[0].ts < cut
    then PruneRing(Ring(r.samples[1..], Max(r.floor, r.samples[0].ts)), cut)
    else r
  }

  /** What every reachable ring satisfies. */
  predicate RingOk(r: Ring) {
    && Sorted(r.samples)
    && |r.samples| <= RAW_RING_CAP
    && forall i :: 0 <= i < |r.samples| ==> r.floor < r.samples[i].ts
  }

  /** A same-second merge: only that sample changes. */
  ghost predicate MergeStep(r: Ring, s: Sample, r': Ring, prev: Sample, now: Sample) {
    && prev in r.samples && prev.ts == s.ts && now == MergedWith(prev, s) && now != prev
    && r'.floor == r.floor && |r'.samples| == |r.samples|
    && Times(r'.samples) == Times(r.samples)
    && (forall x :: x in r'.samples <==> x == now || (x in r.samples && x.ts != s.ts))
  }

  /** A new second: the sample joins, and a full ring drops its oldest, whose
      timestamp becomes the floor. */
  ghost predicate InsertStep(r: Ring, s: Sample, r': Ring) {
    && r.floor < s.ts && s.ts !in Times(r.samples)
    && if |r.samples| < RAW_RING_CAP then
         && r'.floor == r.floor && |r'.samples| == |r.samples| + 1
         && (forall x :: x in r'.samples <==> x == s || x in r.samples)
         && Times(r'.samples) == Times(r.samples) + {s.ts}
       else
         && |r'.samples| == |r.samples| == RAW_RING_CAP
         && r.samples[0].ts < s.ts
         && r'.floor == r.samples[0].ts
         && (forall x :: x in r'.samples <==> x == s || (x in r.samples && x != r.samples[0]))
         && Times(r'.samples) == Times(r.samples) + {s.ts} - {r.samples[0].ts}
  }

  /** A refused offer: at or below the floor, an exact resend, or older than
      everything in a full ring. */
  ghost predicate RejectStep(r: Ring, s: Sample) {
    || s.ts <= r.floor
    || (exists prev :: prev in r.samples && prev.ts == s.ts && MergedWith(prev, s) == prev)
    || (|r.samples| == RAW_RING_CAP && s.ts < r.samples[0].ts)
  }

  /** An offer is exactly one of the three steps, and keeps the ring well formed. */
  lemma OfferEffect(r: Ring, s: Sample)
    requires RingOk(r)
    ensures RingOk(Offer(r, s).0)
    ensures r.floor <= Offer(r, s).0.floor
    ensures match Offer(r, s).1
            case Rejected => Offer(r, s).0 == r && RejectStep(r, s)
            case Merged(prev, now) => MergeStep(r, s, Offer(r, s).0, prev, now)
            case Inserted => InsertStep(r, s, Offer(r, s).0)
  {
    hide InsertAt, MergedWith, Times, InsertStep, MergeStep;
    var pos := PartitionPoint(r.samples, s.ts);
    if s.ts <= r.floor {
    } else if pos < |r.samples| && r.samples[pos].ts == s.ts {
      var prev, now := r.samples[pos], MergedWith(r.samples[pos], s);
      if now == prev {
        assert prev in r.samples;
      } else {
        MergeEffect(r, s, pos);
      }
    } else if pos == 0 && |r.samples| >= RAW_RING_CAP {
    } else {
      InsertEffect(r, s, pos);
    }
  }

  lemma TimesAreMembers(samples: seq<Sample>)
    ensures forall x :: x in samples ==> x.ts in Times(samples)
    ensures forall t :: t in Times(samples) ==> exists x :: x in samples && x.ts == t
  {
  }

  lemma MergeEffect(r: Ring, s: Sample, pos: nat)
    requires RingOk(r) && pos < |r.samples| && r.samples[pos].ts == s.ts
    requires MergedWith(r.samples[pos], s) != r.samples[pos]
    ensures var now := MergedWith(r.samples[pos], s);
            var r' := r.(samples := r.samples[pos := now]);
            RingOk(r') && MergeStep(r, s, r', r.samples[pos], now)
  {
    var now := MergedWith(r.samples[pos], s);
    var samples' := r.samples[pos := now];
    assert forall i :: 0 <= i < |samples'| ==> samples'[i].ts == r.samples[i].ts;
    forall x ensures x in samples' <==> x == now || (x in r.samples && x.ts != s.ts) {
      if x in samples' {
        var i :| 0 <= i < |samples'| && samples'[i] == x;
      }
      if x == now {
        assert samples'[pos] == x;
      }
      if x in r.samples && x.ts != s.ts {
        var i :| 0 <= i < |r.samples| && r.samples[i] == x;
        assert samples'[i] == x;
      }
    }
    assert Times(samples') == Times(r.samples);
  }

  lemma InsertEffect(r: Ring, s: Sample, pos: nat)
    requires RingOk(r) && r.floor < s.ts && pos == PartitionPoint(r.samples, s.ts)
    requires pos < |r.samples| ==> r.samples[pos].ts != s.ts
    requires pos != 0 || |r.samples| < RAW_RING_CAP
    ensures var grown := InsertAt(r.samples, pos, s);
            var r' := if |grown| > RAW_RING_CAP
                      then Ring(grown[1..], Max(r.floor, grown[0].ts)) else Ring(grown, r.floor);
            RingOk(r') && InsertStep(r, s, r')
  {
    hide Times, RAW_RING_CAP;
    var grown := InsertAt(r.samples, pos, s);
    assert Sorted(grown) by { InsertSorted(r.samples, s, pos); }
    InsertMembers(r.samples, s, pos);
    NewSecond(r.samples, s, pos);
    InsertTimes(r.samples, s, grown);
    if |grown| > RAW_RING_CAP {
      hide InsertAt, PartitionPoint;
      assert grown[0] == r.samples[0] && r.samples[0].ts < s.ts;
      FullInsert(r, s, grown);
    } else {
      hide InsertAt, PartitionPoint;
      forall i | 0 <= i < |grown| ensures r.floor < grown[i].ts {
        assert grown[i] in grown;
      }
    }
  }

  lemma NewSecond(samples: seq<Sample>, s: Sample, pos: nat)
    requires Sorted(samples) && pos == PartitionPoint(samples, s.ts)
    requires pos < |samples| ==> samples[pos].ts != s.ts
    ensures s.ts !in Times(samples)
  {
    hide PartitionPoint;
    forall i | 0 <= i < |samples| ensures samples[i].ts != s.ts {
      if pos < i {
        assert samples[pos].ts < samples[i].ts;
      }
    }
  }

  lemma FullInsert(r: Ring, s: Sample, grown: seq<Sample>)
    requires RingOk(r) && r.floor < s.ts && s.ts !in Times(r.samples)
    requires Sorted(grown) && |grown| == |r.samples| + 1 && |grown| > RAW_RING_CAP
    requires forall x :: x in grown <==> x == s || x in r.samples
    requires Times(grown) == Times(r.samples) + {s.ts}
    requires grown[0] == r.samples[0] && r.samples[0].ts < s.ts
    ensures var r' := Ring(grown[1..], Max(r.floor, grown[0].ts));
            RingOk(r') && InsertStep(r, s, r')
  {
    hide Times;
    DropFirst(grown);
    assert r.floor < r.samples[0].ts;
  }

  lemma InsertSorted(samples: seq<Sample>, s: Sample, pos: nat)
    requires Sorted(samples) && pos == PartitionPoint(samples, s.ts)
    requires pos < |samples| ==> samples[pos].ts != s.ts
    ensures Sorted(InsertAt(samples, pos, s))
  {
  }

  lemma InsertMembers(samples: seq<Sample>, s: Sample, pos: nat)
    requires pos <= |samples|
    ensures forall x :: x in InsertAt(samples, pos, s) <==> x == s || x in samples
  {
  }

  lemma InsertTimes(samples: seq<Sample>, s: Sample, grown: seq<Sample>)
    requires forall x :: x in grown <==> x == s || x in samples
    ensures Times(grown) == Times(samples) + {s.ts}
  {
    hide Times;
    TimesAreMembers(samples);
    TimesAreMembers(grown);
    forall t ensures t in Times(grown) <==> t in Times(samples) || t == s.ts {
      if t in Times(samples) {
        var x :| x in samples && x.ts == t;
        assert x in grown;
      }
      if t == s.ts {
        assert s in grown;
      }
    }
  }

  lemma DropFirst(samples: seq<Sample>)
    requires Sorted(samples) && samples != []
    ensures Sorted(samples[1..])
    ensures forall x :: x in samples[1..] <==> x in samples && x != samples[0]
    ensures forall i :: 0 <= i < |samples[1..]| ==> samples[0].ts < samples[1..][i].ts
    ensures Times(samples[1..]) == Times(samples) - {samples[0].ts}
  {
  }

  lemma {:induction false} PruneEffect(r: Ring, cut: nat)
    requires RingOk(r)
    ensures var r' := PruneRing(r, cut);
            && RingOk(r') && r.floor <= r'.floor
            && (forall x :: x in r'.samples <==> x in r.samples && cut <= x.ts)
            && (forall x :: x in r.samples && x.ts < cut ==> x.ts <= r'.floor)
            && Times(r'.samples) <= Times(r.samples)
    decreases |r.samples|
  {
    if r.samples != [] && r.samples[0].ts < cut {
      DropFirst(r.samples);
      PruneEffect(Ring(r.samples[1..], Max(r.floor, r.samples[0].ts)), cut);
    } else if r.samples != [] {
      assert forall i :: 0 <= i < |r.samples| ==> cut <= r.samples[i].ts;
    }
  }
}
