/** One link of the time-series store over any run of ingests and prunes: the ring
    never takes a second back, so a bucket counts one twice only when a merge of that
    second stopped carrying what a later one brings back
    (crates/controller/src/tsdb.rs, `ingest` and `prune`). */
module LinkHistory {
  import opened Core
  import opened Samples
  import opened Ring
  import opened Buckets

  datatype LinkState = LinkState(ring: Ring, buckets: seq<Bucket>)

  const NEW_LINK: LinkState := LinkState(EMPTY_RING, [])

  /** Ingest one sample: the ring decides, and an accepted change is folded into
      its bucket. */
  function Accept(l: LinkState, s: Sample): LinkState {
    var (ring, out) := Offer(l.ring, s);
    match out
    case Rejected => l.(ring := ring)
    case Inserted => LinkState(ring, Fold(l.buckets, s, None))
    case Merged(prev, now) => LinkState(ring, Fold(l.buckets, now, Some(prev)))
  }

  function Retain(l: LinkState, rawCut: nat, aggCut: nat): LinkState {
    LinkState(PruneRing(l.ring, rawCut), Expire(l.buckets, aggCut))
  }

  datatype Event = Ingest(s: Sample) | Prune(rawCut: nat, aggCut: nat)

  function Step(l: LinkState, e: Event): LinkState {
    match e
    case Ingest(s) => Accept(l, s)
    case Prune(rawCut, aggCut) => Retain(l, rawCut, aggCut)
  }

  function Run(events: seq<Event>): LinkState
    decreases |events|
  {
    if events == [] then NEW_LINK
    else Step(Run(events[..|events| - 1]), events[|events| - 1])
  }

  ghost predicate LinkOk(l: LinkState) { RingOk(l.ring) && Ascending(l.buckets) }

  lemma StepKeepsOk(l: LinkState, e: Event)
    requires LinkOk(l)
    ensures LinkOk(Step(l, e)) && l.ring.floor <= Step(l, e).ring.floor
    ensures forall t :: t in Times(l.ring.samples)
              ==> t in Times(Step(l, e).ring.samples) || t <= Step(l, e).ring.floor
  {
    hide Offer, Fold, Expire, PruneRing, MergedWith, Times, Sorted;
    TimesAreMembers(l.ring.samples);
    TimesAreMembers(Step(l, e).ring.samples);
    match e
    case Ingest(s) =>
      OfferEffect(l.ring, s);
      match Offer(l.ring, s).1 {
        case Rejected =>
        case Inserted => FoldAscends(l.buckets, s, None);
        case Merged(prev, now) => FoldAscends(l.buckets, now, Some(prev));
      }
    case Prune(rawCut, aggCut) =>
      PruneEffect(l.ring, rawCut);
      ExpireEffect(l.buckets, aggCut, Probes, 0);
      forall t | t in Times(l.ring.samples)
        ensures t in Times(Step(l, e).ring.samples) || t <= Step(l, e).ring.floor
      {
        var x :| x in l.ring.samples && x.ts == t;
      }
  }

  lemma {:induction false} RunOk(events: seq<Event>)
    ensures LinkOk(Run(events))
    decreases |events|
  {
    if events != [] {
      RunOk(events[..|events| - 1]);
      StepKeepsOk(Run(events[..|events| - 1]), events[|events| - 1]);
    }
  }

  // ── A second that left never returns ─────────────────────────────────────

  /** Any second a ring ever held is still there or is at or below its floor. */
  lemma {:induction false} HeldOrBelowFloor(events: seq<Event>, i: nat, t: nat)
    requires i <= |events| && t in Times(Run(events[..i]).ring.samples)
    ensures t in Times(Run(events).ring.samples) || t <= Run(events).ring.floor
    decreases |events|
  {
    hide Step, RingOk, Times, Ascending;
    if i == |events| {
      assert events[..i] == events;
    } else {
      var front := events[..|events| - 1];
      assert front[..i] == events[..i];
      HeldOrBelowFloor(front, i, t);
      RunOk(front);
      StepKeepsOk(Run(front), events[|events| - 1]);
    }
  }

  lemma AboveFloor(r: Ring, t: nat)
    requires RingOk(r) && t in Times(r.samples)
    ensures r.floor < t
  {
  }

  lemma {:induction false} FloorOnlyRises(events: seq<Event>, i: nat)
    requires i <= |events|
    ensures Run(events[..i]).ring.floor <= Run(events).ring.floor
    decreases |events|
  {
    hide Step, RingOk, Times, Ascending;
    if i == |events| {
      assert events[..i] == events;
    } else {
      var front := events[..|events| - 1];
      assert front[..i] == events[..i];
      FloorOnlyRises(front, i);
      RunOk(front);
      StepKeepsOk(Run(front), events[|events| - 1]);
    }
  }

  /** A second held at step i and gone at step j is never held again, and every
      later offer of it is refused. */
  lemma GoneForGood(events: seq<Event>, i: nat, j: nat, t: nat)
    requires i <= j <= |events|
    requires t in Times(Run(events[..i]).ring.samples) && t !in Times(Run(events[..j]).ring.samples)
    ensures t !in Times(Run(events).ring.samples)
    ensures forall s: Sample :: s.ts == t ==> Accept(Run(events), s) == Run(events)
  {
    hide Step, Times, Run;
    assert events[..j][..i] == events[..i];
    HeldOrBelowFloor(events[..j], i, t);
    FloorOnlyRises(events, j);
    RunOk(events);
    if t in Times(Run(events).ring.samples) {
      AboveFloor(Run(events).ring, t);
    }
  }

  /** The newest second of a ring never recedes while the ring holds anything. */
  lemma NewestNeverRecedes(events: seq<Event>, i: nat)
    requires i <= |events|
    ensures var (early, late) := (Run(events[..i]).ring, Run(events).ring);
            (early.samples != [] && late.samples != [] ==>
               1 <= early.samples[|early.samples| - 1].ts <= late.samples[|late.samples| - 1].ts)
  {
    hide Run, Step;
    var early, late := Run(events[..i]).ring, Run(events).ring;
    if early.samples != [] && late.samples != [] {
      var t := early.samples[|early.samples| - 1].ts;
      assert t in Times(early.samples);
      HeldOrBelowFloor(events, i, t);
      RunOk(events[..i]);
      RunOk(events);
      NewestBounds(late, t);
    }
  }

  lemma NewestBounds(r: Ring, t: nat)
    requires RingOk(r) && r.samples != [] && (t in Times(r.samples) || t <= r.floor)
    ensures t <= r.samples[|r.samples| - 1].ts
  {
  }

  // ── The first value of every second ──────────────────────────────────────

  /** What one event adds to a track: the second and value newly carried. */
  function NewEntry(l: LinkState, e: Event, t: Track): seq<(nat, real)> {
    match e
    case Prune(_, _) => []
    case Ingest(s) =>
      match Offer(l.ring, s).1
      case Rejected => []
      case Inserted => if Adds(s, None, t) then [(s.ts, ValueOf(s, t))] else []
      case Merged(prev, now) => if Adds(now, Some(prev), t) then [(now.ts, ValueOf(now, t))] else []
  }

  /** Every second and value the run counted on a track, oldest first. */
  function Counted(events: seq<Event>, t: Track): seq<(nat, real)>
    decreases |events|
  {
    if events == [] then []
    else
      var front := events[..|events| - 1];
      Counted(front, t) + NewEntry(Run(front), events[|events| - 1], t)
  }

  /** The values counted within one bucket. */
  function InBucket(entries: seq<(nat, real)>, k: nat): seq<real>
    decreases |entries|
  {
    if entries == [] then []
    else
      var (ts, v) := entries[|entries| - 1];
      InBucket(entries[..|entries| - 1], k) + (if BucketOf(ts) == k then [v] else [])
  }

  /** No prune's aggregate cut has passed the bucket. */
  predicate Kept(events: seq<Event>, k: nat) {
    forall i :: 0 <= i < |events| && events[i].Prune? ==> events[i].aggCut <= k
  }

  ghost predicate BucketsPresent(l: LinkState, k: nat) {
    forall x :: x in l.ring.samples && BucketOf(x.ts) == k ==> HasAt(l.buckets, k)
  }

  /** A kept bucket is the aggregate of the values counted in it. */
  lemma {:induction false} KeptBucketIsExact(events: seq<Event>, t: Track, k: nat)
    requires Kept(events, k)
    ensures var l := Run(events);
            && LinkOk(l) && BucketsPresent(l, k)
            && AggAt(l.buckets, k, t) == AggOf(InBucket(Counted(events, t), k))
            && (t == Probes ==> ProbesAt(l.buckets, k) == |InBucket(Counted(events, t), k)|)
    decreases |events|
  {
    RunOk(events);
    if events != [] {
      var front, e := events[..|events| - 1], events[|events| - 1];
      assert forall i :: 0 <= i < |front| ==> front[i] == events[i];
      KeptBucketIsExact(front, t, k);
      var l := Run(front);
      assert e.Prune? ==> e.aggCut <= k;
      StepCounts(l, e, t, k);
      var was, more := Counted(front, t), NewEntry(l, e, t);
      assert Counted(events, t) == was + more;
      hide Run, Counted, NewEntry, Step, AggAt, ProbesAt, BucketsPresent, LinkOk;
      if more == [] {
        assert was + more == was;
      } else {
        assert (was + more)[..|was|] == was;
        assert (was + more)[|was|] == more[0];
        var vs := InBucket(was, k);
        if BucketOf(more[0].0) == k {
          assert (vs + [more[0].1])[..|vs|] == vs;
        } else {
          assert vs + [] == vs;
        }
      }
    }
  }

  /** One event changes bucket k by what it newly counts there. */
  lemma StepCounts(l: LinkState, e: Event, t: Track, k: nat)
    requires LinkOk(l) && BucketsPresent(l, k) && (e.Prune? ==> e.aggCut <= k)
    ensures BucketsPresent(Step(l, e), k)
    ensures |NewEntry(l, e, t)| <= 1
    ensures var more := NewEntry(l, e, t);
            var here := more != [] && BucketOf(more[0].0) == k;
            && AggAt(Step(l, e).buckets, k, t)
               == (if here then AggAt(l.buckets, k, t).Merge(more[0].1) else AggAt(l.buckets, k, t))
            && (t == Probes ==>
                  ProbesAt(Step(l, e).buckets, k) == ProbesAt(l.buckets, k) + (if here then 1 else 0))
  {
    hide Offer, Fold, Expire, PruneRing, MergedWith, Times, Sorted, AggAt, ProbesAt, Carries, ValueOf, HasAt;
    match e
    case Prune(rawCut, aggCut) =>
      PruneEffect(l.ring, rawCut);
      ExpireEffect(l.buckets, aggCut, t, k);
    case Ingest(s) =>
      OfferEffect(l.ring, s);
      match Offer(l.ring, s).1 {
        case Rejected =>
        case Inserted =>
          FoldEffect(l.buckets, s, None, t, k);
          FoldAscends(l.buckets, s, None);
          InsertPresent(l, s, k);
        case Merged(prev, now) =>
          FoldEffect(l.buckets, now, Some(prev), t, k);
          FoldAscends(l.buckets, now, Some(prev));
          MergePresent(l, s, prev, now, k);
      }
  }

  lemma InsertPresent(l: LinkState, s: Sample, k: nat)
    requires BucketsPresent(l, k) && InsertStep(l.ring, s, Offer(l.ring, s).0)
    requires HasAt(Fold(l.buckets, s, None), BucketOf(s.ts))
    requires k != BucketOf(s.ts) ==> HasAt(Fold(l.buckets, s, None), k) == HasAt(l.buckets, k)
    ensures BucketsPresent(LinkState(Offer(l.ring, s).0, Fold(l.buckets, s, None)), k)
  {
  }

  lemma MergePresent(l: LinkState, s: Sample, prev: Sample, now: Sample, k: nat)
    requires BucketsPresent(l, k) && MergeStep(l.ring, s, Offer(l.ring, s).0, prev, now)
    requires HasAt(Fold(l.buckets, now, Some(prev)), BucketOf(now.ts))
    requires k != BucketOf(now.ts) ==> HasAt(Fold(l.buckets, now, Some(prev)), k) == HasAt(l.buckets, k)
    ensures BucketsPresent(LinkState(Offer(l.ring, s).0, Fold(l.buckets, now, Some(prev))), k)
    ensures BucketOf(now.ts) == k ==> HasAt(l.buckets, k)
  {
  }

  // ── Each second is counted once ──────────────────────────────────────────

  /** The ring holds a sample of second `ts` that carries the track. */
  ghost predicate Held(r: Ring, t: Track, ts: nat) {
    exists x :: x in r.samples && x.ts == ts && Carries(x, t)
  }

  ghost predicate EverHeld(events: seq<Event>, t: Track, ts: nat) {
    exists i :: 0 <= i <= |events| && Held(Run(events[..i]).ring, t, ts)
  }

  /** A second's value is the one the ring held when it first carried the track. */
  ghost predicate FirstHeld(events: seq<Event>, t: Track, ts: nat, v: real) {
    exists i :: 0 <= i <= |events| && HeldAs(Run(events[..i]).ring, t, ts, v)
             && forall j :: 0 <= j < i ==> !Held(Run(events[..j]).ring, t, ts)
  }

  ghost predicate HeldAs(r: Ring, t: Track, ts: nat, v: real) {
    exists x :: x in r.samples && x.ts == ts && Carries(x, t) && ValueOf(x, t) == v
  }

  /** The ring comes to carry a second again that it carried before and then did not. */
  ghost predicate RegainedAt(events: seq<Event>, t: Track, ts: nat, i: nat) {
    && i < |events| && EverHeld(events[..i], t, ts)
    && !Held(Run(events[..i]).ring, t, ts) && Held(Run(events[..i + 1]).ring, t, ts)
  }

  ghost predicate Regained(events: seq<Event>, t: Track, ts: nat) {
    exists i: nat :: RegainedAt(events, t, ts, i)
  }

  ghost predicate NoneRegained(events: seq<Event>, t: Track, k: nat) {
    forall ts :: Regained(events, t, ts) ==> BucketOf(ts) != k
  }

  ghost predicate Mentions(entries: seq<(nat, real)>, ts: nat) {
    exists i :: 0 <= i < |entries| && entries[i].0 == ts
  }

  lemma OneEntry(l: LinkState, e: Event, t: Track)
    ensures |NewEntry(l, e, t)| <= 1
  {
  }

  lemma OneSamplePerSecond(r: Ring, prev: Sample)
    requires RingOk(r) && prev in r.samples
    ensures forall x :: x in r.samples && x.ts == prev.ts ==> x == prev
    ensures r.floor < prev.ts
  {
  }

  lemma InsertFloor(r: Ring, s: Sample, r': Ring)
    requires RingOk(r) && InsertStep(r, s, r')
    ensures r.floor <= r'.floor
  {
  }

  /** An event counts a second exactly when the ring carries it from then on and did
      not before. */
  lemma GainIsCounted(l: LinkState, e: Event, t: Track, ts: nat)
    requires LinkOk(l)
    ensures !Held(l.ring, t, ts) && Held(Step(l, e).ring, t, ts)
       <==> NewEntry(l, e, t) != [] && NewEntry(l, e, t)[0].0 == ts
  {
    hide Offer, Fold, Expire, PruneRing, MergedWith, Times, Carries, ValueOf, Ascending, InsertStep, MergeStep;
    match e
    case Prune(rawCut, aggCut) =>
      PruneEffect(l.ring, rawCut);
    case Ingest(s) =>
      OfferEffect(l.ring, s);
      match Offer(l.ring, s).1 {
        case Rejected =>
        case Inserted => InsertGains(l.ring, s, Offer(l.ring, s).0, t, ts);
        case Merged(prev, now) => MergeGains(l.ring, s, Offer(l.ring, s).0, prev, now, t, ts);
      }
  }

  lemma InsertGains(r: Ring, s: Sample, r': Ring, t: Track, ts: nat)
    requires InsertStep(r, s, r')
    ensures !Held(r, t, ts) && Held(r', t, ts) <==> Carries(s, t) && ts == s.ts
  {
    hide Carries;
    TimesAreMembers(r.samples);
    hide Times;
  }

  lemma MergeGains(r: Ring, s: Sample, r': Ring, prev: Sample, now: Sample, t: Track, ts: nat)
    requires RingOk(r) && MergeStep(r, s, r', prev, now)
    ensures !Held(r, t, ts) && Held(r', t, ts) <==> Carries(now, t) && !Carries(prev, t) && ts == now.ts
  {
    hide Carries, Times;
    OneSamplePerSecond(r, prev);
    MergeTime(prev, s);
    hide MergedWith, RingOk;
    assert now in r'.samples;
  }

  lemma EverHeldStep(events: seq<Event>, t: Track, ts: nat)
    requires events != []
    ensures EverHeld(events, t, ts)
       <==> EverHeld(events[..|events| - 1], t, ts) || Held(Run(events).ring, t, ts)
  {
    hide Run, Held;
    var front := events[..|events| - 1];
    assert events[..|events|] == events;
    assert forall i: nat :: i <= |front| ==> front[..i] == events[..i];
    if EverHeld(events, t, ts) {
      var i :| 0 <= i <= |events| && Held(Run(events[..i]).ring, t, ts);
      assert i <= |front| ==> Held(Run(front[..i]).ring, t, ts);
    }
    if EverHeld(front, t, ts) {
      var i :| 0 <= i <= |front| && Held(Run(front[..i]).ring, t, ts);
      assert Held(Run(events[..i]).ring, t, ts);
    }
  }

  lemma FirstHeldLater(events: seq<Event>, t: Track, ts: nat, v: real)
    requires events != [] && FirstHeld(events[..|events| - 1], t, ts, v)
    ensures FirstHeld(events, t, ts, v)
  {
    hide Run, Held, HeldAs;
    var front := events[..|events| - 1];
    assert forall i: nat :: i <= |front| ==> front[..i] == events[..i];
    var i :| 0 <= i <= |front| && HeldAs(Run(front[..i]).ring, t, ts, v)
      && forall j :: 0 <= j < i ==> !Held(Run(front[..j]).ring, t, ts);
    assert HeldAs(Run(events[..i]).ring, t, ts, v);
    forall j | 0 <= j < i ensures !Held(Run(events[..j]).ring, t, ts) {
      assert !Held(Run(front[..j]).ring, t, ts);
    }
  }

  /** A newly counted second is held with that value from this step on. */
  lemma NewEntryHeld(l: LinkState, e: Event, t: Track)
    requires RingOk(l.ring) && NewEntry(l, e, t) != []
    ensures HeldAs(Step(l, e).ring, t, NewEntry(l, e, t)[0].0, NewEntry(l, e, t)[0].1)
    ensures Held(Step(l, e).ring, t, NewEntry(l, e, t)[0].0)
  {
    hide Offer, Fold, MergedWith, Times, Sorted, Carries, ValueOf;
    OfferEffect(l.ring, e.s);
    match Offer(l.ring, e.s).1 {
      case Inserted => assert e.s in Step(l, e).ring.samples;
      case Merged(prev, now) => assert now in Step(l, e).ring.samples;
    }
  }

  /** The seconds counted on a track are those the ring ever held carrying it. */
  lemma {:induction false} CountedAreHeld(events: seq<Event>, t: Track, ts: nat)
    ensures Mentions(Counted(events, t), ts) <==> EverHeld(events, t, ts)
    decreases |events|
  {
    hide Step, NewEntry, Held;
    if events == [] {
      NothingHeld(events, t, ts);
    } else {
      var front, e := events[..|events| - 1], events[|events| - 1];
      CountedAreHeld(front, t, ts);
      RunOk(front);
      OneEntry(Run(front), e, t);
      GainIsCounted(Run(front), e, t, ts);
      EverHeldStep(events, t, ts);
      if Held(Run(front).ring, t, ts) {
        HeldNow(front, t, ts);
      }
      hide EverHeld, Mentions, LinkOk;
      MentionsMore(Counted(front, t), NewEntry(Run(front), e, t), ts);
    }
  }

  lemma NothingHeld(events: seq<Event>, t: Track, ts: nat)
    requires events == []
    ensures !EverHeld(events, t, ts)
  {
    assert forall i: nat :: i <= |events| ==> events[..i] == [];
  }

  lemma HeldNow(events: seq<Event>, t: Track, ts: nat)
    requires Held(Run(events).ring, t, ts)
    ensures EverHeld(events, t, ts)
  {
    assert events[..|events|] == events;
  }

  lemma MentionsMore(counted: seq<(nat, real)>, more: seq<(nat, real)>, ts: nat)
    requires |more| <= 1
    ensures Mentions(counted + more, ts) <==> Mentions(counted, ts) || (more != [] && more[0].0 == ts)
  {
    var all := counted + more;
    assert forall i :: 0 <= i < |counted| ==> all[i] == counted[i];
    if more != [] {
      assert all[|counted|] == more[0];
    }
  }

  /** A second is regained in a run before its last event, or by it. */
  lemma RegainedStep(events: seq<Event>, t: Track, ts: nat)
    requires events != []
    ensures Regained(events, t, ts)
       <==> Regained(events[..|events| - 1], t, ts) || RegainedAt(events, t, ts, |events| - 1)
  {
    hide Run, Held, EverHeld;
    var front := events[..|events| - 1];
    assert forall i: nat :: i <= |front| ==> front[..i] == events[..i];
    if Regained(events, t, ts) {
      var i: nat :| RegainedAt(events, t, ts, i);
      assert i < |front| ==> RegainedAt(front, t, ts, i);
    }
    if Regained(front, t, ts) {
      var i :| RegainedAt(front, t, ts, i);
      assert RegainedAt(events, t, ts, i);
    }
  }

  ghost predicate Recounts(was: seq<(nat, real)>, more: seq<(nat, real)>, ts: nat) {
    more != [] && more[0].0 == ts && Mentions(was, ts)
  }

  /** The last event regains a second exactly when it counts one that was held before. */
  lemma RegainIsRecounted(events: seq<Event>, t: Track, ts: nat)
    requires events != []
    ensures RegainedAt(events, t, ts, |events| - 1)
       <==> Recounts(Counted(events[..|events| - 1], t),
                     NewEntry(Run(events[..|events| - 1]), events[|events| - 1], t), ts)
  {
    hide Step, NewEntry, Held, EverHeld, Mentions;
    var front, e := events[..|events| - 1], events[|events| - 1];
    CountedAreHeld(front, t, ts);
    RunOk(front);
    GainIsCounted(Run(front), e, t, ts);
    assert events[..|events| - 1] == front && events[..|events| - 1 + 1] == events;
  }

  // ── What a bucket says ───────────────────────────────────────────────────

  /** The seconds of one bucket ever held carrying the track. */
  ghost function SecondsIn(events: seq<Event>, t: Track, k: nat): set<nat> {
    set ts | k <= ts < k + BUCKET_SECS && EverHeld(events, t, ts)
  }

  function SecondsOf(entries: seq<(nat, real)>, k: nat): set<nat> {
    set i | 0 <= i < |entries| && BucketOf(entries[i].0) == k :: entries[i].0
  }

  lemma SecondsMore(front: seq<(nat, real)>, entry: (nat, real), k: nat)
    ensures SecondsOf(front + [entry], k)
         == SecondsOf(front, k) + (if BucketOf(entry.0) == k then {entry.0} else {})
    ensures entry.0 in SecondsOf(front, k) <==> BucketOf(entry.0) == k && Mentions(front, entry.0)
  {
    hide BucketOf;
    var entries := front + [entry];
    assert entries[|front|] == entry;
    assert forall i :: 0 <= i < |front| ==> front[i] == entries[i];
  }

  /** A bucket counts every one of its seconds, and one of them twice exactly when it
      was regained. */
  lemma {:induction false} CountedTwiceIffRegained(events: seq<Event>, t: Track, k: nat)
    ensures |SecondsOf(Counted(events, t), k)| <= |InBucket(Counted(events, t), k)|
    ensures |SecondsOf(Counted(events, t), k)| == |InBucket(Counted(events, t), k)| <==> NoneRegained(events, t, k)
    decreases |events|
  {
    hide Step, NewEntry, RegainedAt, Mentions, Regained, SecondsOf, BucketOf;
    if events == [] {
      NothingRegained(events, t);
      NoSeconds(k);
    } else {
      var front, e := events[..|events| - 1], events[|events| - 1];
      var was, more := Counted(front, t), NewEntry(Run(front), e, t);
      CountedTwiceIffRegained(front, t, k);
      OneEntry(Run(front), e, t);
      assert Counted(events, t) == was + more;
      hide Run, Counted;
      forall ts ensures Regained(events, t, ts) <==> Regained(front, t, ts) || Recounts(was, more, ts) {
        RegainedStep(events, t, ts);
        RegainIsRecounted(events, t, ts);
      }
      if more == [] {
        assert was + more == was;
      } else {
        assert more == [more[0]];
        SecondsMore(was, more[0], k);
        assert (was + more)[..|was|] == was && (was + more)[|was|] == more[0];
      }
    }
  }

  lemma NothingRegained(events: seq<Event>, t: Track)
    requires events == []
    ensures forall ts :: !Regained(events, t, ts)
  {
  }

  lemma NoSeconds(k: nat)
    ensures SecondsOf([], k) == {}
  {
  }

  /** A second never regained is counted at the value the ring first held. */
  lemma {:induction false} CountedAreFirstHeld(events: seq<Event>, t: Track)
    ensures forall i :: 0 <= i < |Counted(events, t)| && !Regained(events, t, Counted(events, t)[i].0)
              ==> FirstHeld(events, t, Counted(events, t)[i].0, Counted(events, t)[i].1)
    decreases |events|
  {
    hide Step, NewEntry, Held, HeldAs, FirstHeld, Regained, RegainedAt;
    if events != [] {
      var front, e := events[..|events| - 1], events[|events| - 1];
      CountedAreFirstHeld(front, t);
      OneEntry(Run(front), e, t);
      assert Counted(events, t) == Counted(front, t) + NewEntry(Run(front), e, t);
      forall i | 0 <= i < |Counted(events, t)| && !Regained(events, t, Counted(events, t)[i].0)
        ensures FirstHeld(events, t, Counted(events, t)[i].0, Counted(events, t)[i].1)
      {
        var (ts, v) := Counted(events, t)[i];
        RegainedStep(events, t, ts);
        if i < |Counted(front, t)| {
          assert Counted(front, t)[i] == (ts, v);
          FirstHeldLater(events, t, ts, v);
        } else {
          NewEntryIsFirst(events, t);
        }
      }
    }
  }

  lemma NewEntryIsFirst(events: seq<Event>, t: Track)
    requires events != []
    requires var more := NewEntry(Run(events[..|events| - 1]), events[|events| - 1], t);
             more != [] && !RegainedAt(events, t, more[0].0, |events| - 1)
    ensures var entry := NewEntry(Run(events[..|events| - 1]), events[|events| - 1], t)[0];
            FirstHeld(events, t, entry.0, entry.1)
  {
    hide Step, NewEntry, Held, HeldAs, Mentions, RegainedAt;
    var front, e := events[..|events| - 1], events[|events| - 1];
    RunOk(front);
    NewEntryHeld(Run(front), e, t);
    var (ts, v) := NewEntry(Run(front), e, t)[0];
    RegainIsRecounted(events, t, ts);
    CountedAreHeld(front, t, ts);
    assert events[..|events|] == events;
    assert HeldAs(Run(events[..|events|]).ring, t, ts, v);
    forall j | 0 <= j < |events| ensures !Held(Run(events[..j]).ring, t, ts) {
      assert front[..j] == events[..j];
      assert !EverHeld(front, t, ts);
    }
  }

  /** Every kept bucket says, of every dimension and of probe reports: the sum and
      extremes of the values counted; and it counts each of its seconds that ever
      carried the track, once exactly when none of them was regained. */
  lemma BucketCountsEachSecondOnce(events: seq<Event>, t: Track, k: nat)
    requires k % BUCKET_SECS == 0 && Kept(events, k)
    ensures var a, vs := AggAt(Run(events).buckets, k, t), InBucket(Counted(events, t), k);
            && a.n == |vs| && a.sum == Sum(vs)
            && (forall v :: v in vs ==> a.min <= v <= a.max)
            && (a.n > 0 ==> a.min in vs && a.max in vs && a.min <= a.sum / (a.n as real) <= a.max)
            && |SecondsIn(events, t, k)| <= a.n
            && (a.n == |SecondsIn(events, t, k)| <==> NoneRegained(events, t, k))
            && (NoneRegained(events, t, k) ==> a.n <= BUCKET_SECS)
    ensures t == Probes ==> ProbesAt(Run(events).buckets, k) == AggAt(Run(events).buckets, k, t).n
  {
    hide *;
    var counted := Counted(events, t);
    KeptBucketIsExact(events, t, k);
    AggMeaning(InBucket(counted, k));
    CountedTwiceIffRegained(events, t, k);
    forall ts ensures Mentions(counted, ts) <==> EverHeld(events, t, ts) {
      CountedAreHeld(events, t, ts);
    }
    SecondsAgree(events, counted, t, k);
    RangeSize(SecondsIn(events, t, k), k) by { SecondsInRange(events, t, k); }
  }

  lemma SecondsInRange(events: seq<Event>, t: Track, k: nat)
    ensures forall x :: x in SecondsIn(events, t, k) ==> k <= x < k + BUCKET_SECS
  {
  }

  lemma SecondsAgree(events: seq<Event>, counted: seq<(nat, real)>, t: Track, k: nat)
    requires k % BUCKET_SECS == 0
    requires forall ts: nat :: Mentions(counted, ts) <==> EverHeld(events, t, ts)
    ensures SecondsOf(counted, k) == SecondsIn(events, t, k)
  {
  }

  lemma RangeSize(s: set<nat>, k: nat)
    requires forall x :: x in s ==> k <= x < k + BUCKET_SECS
    ensures |s| <= BUCKET_SECS
  {
    RangeCount(s, k, BUCKET_SECS);
  }

  lemma {:induction false} RangeCount(s: set<nat>, k: nat, n: nat)
    requires forall x :: x in s ==> k <= x < k + n
    ensures |s| <= n
  {
    if n == 0 {
      assert s == {};
    } else {
      RangeCount(s - {k + n - 1}, k, n - 1);
      assert s <= (s - {k + n - 1}) + {k + n - 1};
      SubsetSize(s, (s - {k + n - 1}) + {k + n - 1});
    }
  }

  // ── When a second is regained ────────────────────────────────────────────

  /** Event i is a merge after which second ts carries the track no more. */
  ghost predicate LostAt(events: seq<Event>, t: Track, ts: nat, i: nat) {
    && i < |events| && ts in Times(Run(events[..i + 1]).ring.samples)
    && Held(Run(events[..i]).ring, t, ts) && !Held(Run(events[..i + 1]).ring, t, ts)
  }

  /** A second can only be regained after a merge lost it. */
  lemma {:induction false} RegainNeedsLoss(events: seq<Event>, t: Track, ts: nat, i: nat)
    requires RegainedAt(events, t, ts, i)
    ensures exists j: nat :: j < i && LostAt(events, t, ts, j)
  {
    hide Run, Held, Times;
    var j :| 0 <= j <= |events[..i]| && Held(Run(events[..i][..j]).ring, t, ts);
    assert events[..i][..j] == events[..j];
    var m := LastHeld(events, t, ts, j, i);
    assert events[..i + 1][..m + 1] == events[..m + 1] && events[..m + 1][..m] == events[..m];
    HeldIsThere(Run(events[..i + 1]).ring, t, ts);
    HeldIsThere(Run(events[..m]).ring, t, ts);
    HeldOrBelowFloor(events[..m + 1], m, ts);
    RunOk(events[..i + 1]);
    AboveFloor(Run(events[..i + 1]).ring, ts);
    FloorOnlyRises(events[..i + 1], m + 1);
    assert LostAt(events, t, ts, m);
  }

  lemma HeldIsThere(r: Ring, t: Track, ts: nat)
    requires Held(r, t, ts)
    ensures ts in Times(r.samples)
  {
    TimesAreMembers(r.samples);
  }

  lemma {:induction false} LastHeld(events: seq<Event>, t: Track, ts: nat, j: nat, i: nat) returns (m: nat)
    requires j <= i <= |events|
    requires Held(Run(events[..j]).ring, t, ts) && !Held(Run(events[..i]).ring, t, ts)
    ensures j <= m < i && Held(Run(events[..m]).ring, t, ts) && !Held(Run(events[..m + 1]).ring, t, ts)
    decreases i
  {
    hide Run, Held;
    if Held(Run(events[..i - 1]).ring, t, ts) {
      m := i - 1;
    } else {
      m := LastHeld(events, t, ts, j, i - 1);
    }
  }

  /** The merges that lose a probe: neither side carries a tested dimension and the
      new one brings a block or a joined block result. */
  predicate LosesProbe(prev: Sample, s: Sample) {
    prev.IsProbe() && !prev.HasProbeDim() && !s.HasProbeDim() && (BlockN in s.mark || MarkLoss in s.dims)
  }

  /** A merge keeps every dimension, and the probe unless it is one of those. */
  lemma TrackLostIff(prev: Sample, s: Sample, t: Track)
    requires Carries(prev, t)
    ensures !Carries(MergedWith(prev, s), t) <==> t == Probes && LosesProbe(prev, s)
  {
  }

  /** The event offers a sample of the second `prev` is held for. */
  ghost predicate MergesInto(events: seq<Event>, i: nat, prev: Sample) {
    && i < |events| && events[i].Ingest?
    && prev in Run(events[..i]).ring.samples && prev.ts == events[i].s.ts
  }

  /** A loss is the merge of a dimensionless probe with a block or a joined result. */
  lemma LossIsProbeMerge(events: seq<Event>, t: Track, ts: nat, i: nat)
    requires LostAt(events, t, ts, i)
    ensures t == Probes && events[i].Ingest? && events[i].s.ts == ts
    ensures exists prev :: MergesInto(events, i, prev) && LosesProbe(prev, events[i].s)
  {
    hide Run, Offer, Fold, Expire, PruneRing, Times, Carries, LosesProbe, MergedWith;
    var l, e := Run(events[..i]), events[i];
    assert events[..i + 1][..i] == events[..i];
    RunStep(events[..i + 1]);
    RunOk(events[..i]);
    TimesAreMembers(Step(l, e).ring.samples);
    var x :| x in l.ring.samples && x.ts == ts && Carries(x, t);
    OneSamplePerSecond(l.ring, x);
    match e
    case Prune(rawCut, aggCut) =>
      PruneEffect(l.ring, rawCut);
    case Ingest(s) =>
      OfferEffect(l.ring, s);
      match Offer(l.ring, s).1 {
        case Rejected =>
        case Inserted =>
        case Merged(prev, now) =>
          TrackLostIff(prev, s, t);
          assert MergesInto(events, i, prev);
      }
  }

  lemma RunStep(events: seq<Event>)
    requires events != []
    ensures Run(events) == Step(Run(events[..|events| - 1]), events[|events| - 1])
  {
  }

  /** No merge of the run loses a probe. */
  ghost predicate KeepsProbes(events: seq<Event>) {
    forall i: nat, prev :: MergesInto(events, i, prev) ==> !LosesProbe(prev, events[i].s)
  }

  /** Dimensions are counted once in every run, and probe reports in every run no
      merge of which loses one. */
  lemma NothingIsRegained(events: seq<Event>, t: Track, ts: nat)
    requires t == Probes ==> KeepsProbes(events)
    ensures !Regained(events, t, ts)
  {
    hide Run, LosesProbe, LostAt, RegainedAt, MergesInto;
    if i: nat :| RegainedAt(events, t, ts, i) {
      RegainNeedsLoss(events, t, ts, i);
      var j: nat :| j < i && LostAt(events, t, ts, j);
      LossIsProbeMerge(events, t, ts, j);
      assert false;
    }
  }

  /** Such a merge does count a second twice: a failed probe, a block and a probe of
      one second count two probes. */
  lemma DimensionlessProbeCountsTwice()
    ensures var failed := Sample(61, map[], map[], 5.0, 1);
            var block := Sample(61, map[], map[BlockN := 6], 0.0, 0);
            var probe := Sample(61, map[Rtt := 20.0], map[], 5.0, 0);
            ProbesAt(Run([Ingest(failed), Ingest(block), Ingest(probe)]).buckets, 60) == 2
  {
    var failed := Sample(61, map[], map[], 5.0, 1);
    var block := Sample(61, map[], map[BlockN := 6], 0.0, 0);
    var probe := Sample(61, map[Rtt := 20.0], map[], 5.0, 0);
    var both := MergedWith(failed, block);
    var all := MergedWith(both, probe);
    assert BlockN in block.mark && BlockN in both.mark && BlockN !in failed.mark;
    assert Rtt in probe.dims && Rtt in all.dims && Rtt !in both.dims;
    assert failed.IsProbe() && !both.IsProbe() && all.IsProbe();
    assert both != failed && all != both;
    ThreeOffers(failed, block, probe);
    hide Run, Fold, MergedWith, Sample.IsProbe;
    assert BucketOf(61) == 60;
    var b1 := Fold([], failed, None);
    var b2 := Fold(b1, both, Some(failed));
    FoldEffect([], failed, None, Probes, 60);
    FoldAscends([], failed, None);
    FoldEffect(b1, both, Some(failed), Probes, 60);
    FoldAscends(b1, both, Some(failed));
    FoldEffect(b2, all, Some(both), Probes, 60);
  }

  lemma ThreeOffers(x: Sample, y: Sample, z: Sample)
    requires x.ts == y.ts == z.ts > 0
    requires MergedWith(x, y) != x && MergedWith(MergedWith(x, y), z) != MergedWith(x, y)
    ensures var both := MergedWith(x, y);
            var bs := Fold(Fold([], x, None), both, Some(x));
            Run([Ingest(x), Ingest(y), Ingest(z)]).buckets == Fold(bs, MergedWith(both, z), Some(both))
  {
    hide Fold, Offer, MergedWith, Run;
    var e1, e2, e3 := Ingest(x), Ingest(y), Ingest(z);
    FirstOffer(x);
    OneSecondMerge(x, y);
    OneSecondMerge(MergedWith(x, y), z) by { assert MergedWith(x, y).ts == x.ts by { MergeTime(x, y); } }
    RunMore([], e1);
    RunMore([e1], e2);
    RunMore([e1, e2], e3);
    assert [] + [e1] == [e1] && [e1] + [e2] == [e1, e2] && [e1, e2] + [e3] == [e1, e2, e3];
    assert Run([]) == NEW_LINK by { EmptyRun(); }
  }

  lemma MergeTime(x: Sample, y: Sample)
    ensures MergedWith(x, y).ts == x.ts
  {
  }

  lemma EmptyRun()
    ensures Run([]) == NEW_LINK
  {
  }

  lemma RunMore(events: seq<Event>, e: Event)
    ensures Run(events + [e]) == Step(Run(events), e)
  {
  }

  lemma FirstOffer(x: Sample)
    requires x.ts > 0
    ensures Offer(EMPTY_RING, x) == (Ring([x], 0), Inserted)
  {
    assert PartitionPoint([], x.ts) == 0;
    assert InsertAt([], 0, x) == [x];
  }

  lemma OneSecondMerge(x: Sample, s: Sample)
    requires x.ts == s.ts > 0 && MergedWith(x, s) != x
    ensures Offer(Ring([x], 0), s) == (Ring([MergedWith(x, s)], 0), Merged(x, MergedWith(x, s)))
  {
    assert PartitionPoint([x], s.ts) == 0;
    assert [x][0 := MergedWith(x, s)] == [MergedWith(x, s)];
  }
}
