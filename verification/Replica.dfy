/** One member's share of sample replication: what an offer adds to its log, and
    why samples that agree can only be accepted a bounded number of times. */
module Replica {
  import opened Core
  import opened Samples
  import opened Ring
  import opened Buckets
  import opened LinkHistory
  import opened Tsdb

  /** A controller's store and watermarks, with its history: every sample ever
      offered to it, and every entry it ever gave a number to. */
  datatype Member = Member(store: Store, sent: map<string, nat>,
                           offers: seq<(LinkKey, Sample)>, log: seq<Entry>)

  const NEW_MEMBER: Member := Member(NEW_STORE, map[], [], [])

  function Taken(m: Member, link: LinkKey, s: Sample): Member {
    var out := Offer(LinkOf(m.store, link).ring, s).1;
    Member(Ingested(m.store, link, s), m.sent, m.offers + [(link, s)],
           if out.Rejected? then m.log else m.log + [Entry(m.store.next, link, Stored(out, s))])
  }

  function TakenAll(m: Member, delta: seq<(LinkKey, Sample)>): Member
    decreases |delta|
  {
    if delta == [] then m
    else Taken(TakenAll(m, delta[..|delta| - 1]), delta[|delta| - 1].0, delta[|delta| - 1].1)
  }

  /** The history adds nothing to the store's own behaviour. */
  lemma {:induction false} TakenAllMergesDelta(m: Member, delta: seq<(LinkKey, Sample)>)
    ensures TakenAll(m, delta).store == MergedDelta(m.store, delta) && TakenAll(m, delta).sent == m.sent
    decreases |delta|
  {
    if delta != [] {
      TakenAllMergesDelta(m, delta[..|delta| - 1]);
    }
  }

  function Retained(m: Member, rawCut: nat, aggCut: nat): Member {
    m.(store := Pruned(m.store, rawCut, aggCut))
  }

  /** How many log entries retention has dropped from the delta source. */
  function Dropped(m: Member): int { |m.log| - |m.store.recent| }

  /** The log numbers its entries from 1, and `recent` is what is left of it. */
  ghost predicate LogOk(m: Member) {
    && m.store.next == |m.log| + 1
    && 0 <= Dropped(m) && m.store.recent == m.log[Dropped(m)..]
    && forall i :: 0 <= i < |m.log| ==> m.log[i].num == i + 1
  }

  /** Logs, offers and drops only grow. */
  ghost predicate Grew(m: Member, m': Member) {
    && |m.log| <= |m'.log| && m'.log[..|m.log|] == m.log
    && |m.offers| <= |m'.offers| && m'.offers[..|m.offers|] == m.offers
    && Dropped(m) <= Dropped(m')
  }

  lemma TakenKeepsLog(m: Member, link: LinkKey, s: Sample)
    requires LogOk(m)
    ensures LogOk(Taken(m, link, s)) && Grew(m, Taken(m, link, s))
    ensures (link, s) in Taken(m, link, s).offers
    ensures Taken(m, link, s).sent == m.sent && Dropped(Taken(m, link, s)) == Dropped(m)
  {
    hide Offer, Fold, Accept;
    var m' := Taken(m, link, s);
    assert m'.offers[|m.offers|] == (link, s);
    assert m'.log[..|m.log|] == m.log;
    if |m'.log| > |m.log| {
      assert m'.store.recent == m.store.recent + [m'.log[|m.log|]];
    }
  }

  lemma {:induction false} TakenAllKeepsLog(m: Member, delta: seq<(LinkKey, Sample)>)
    requires LogOk(m)
    ensures LogOk(TakenAll(m, delta)) && Grew(m, TakenAll(m, delta))
    ensures forall x :: x in delta ==> x in TakenAll(m, delta).offers
    ensures TakenAll(m, delta).sent == m.sent && Dropped(TakenAll(m, delta)) == Dropped(m)
    decreases |delta|
  {
    hide Taken, LogOk;
    if delta == [] {
    } else {
      var front, last := delta[..|delta| - 1], delta[|delta| - 1];
      TakenAllKeepsLog(m, front);
      TakenKeepsLog(TakenAll(m, front), last.0, last.1);
      GrewTrans(m, TakenAll(m, front), TakenAll(m, delta));
      assert delta == front + [last];
      forall x | x in delta ensures x in TakenAll(m, delta).offers {
        if x in front {
          GrewOffers(TakenAll(m, front), TakenAll(m, delta), x);
        }
      }
    }
  }

  lemma GrewTrans(a: Member, b: Member, c: Member)
    requires Grew(a, b) && Grew(b, c)
    ensures Grew(a, c)
  {
  }

  lemma GrewOffers(m: Member, m': Member, x: (LinkKey, Sample))
    requires Grew(m, m') && x in m.offers
    ensures x in m'.offers
  {
  }

  lemma RetainedKeepsLog(m: Member, rawCut: nat, aggCut: nat)
    requires LogOk(m)
    ensures LogOk(Retained(m, rawCut, aggCut)) && Grew(m, Retained(m, rawCut, aggCut))
  {
    hide PruneRing, Expire;
    PopTakesOnlyOld(m.store.recent, rawCut);
    var m' := Retained(m, rawCut, aggCut);
    assert m'.store.recent == m.log[Dropped(m)..][|m.store.recent| - |m'.store.recent|..];
  }

  // ── Facts a sample states ────────────────────────────────────────────────

  datatype Fact =
    | Second(link: LinkKey, ts: nat)
    | DimIs(link: LinkKey, ts: nat, d: Dim, v: real)
    | MarkIs(link: LinkKey, ts: nat, m: MarkDim, c: nat)
    | UtilIs(link: LinkKey, ts: nat, u: real)
    | StateIs(link: LinkKey, ts: nat, code: nat)

  function FactsOf(link: LinkKey, s: Sample): set<Fact> {
    {Second(link, s.ts), UtilIs(link, s.ts, s.util), StateIs(link, s.ts, s.state)}
    + (set d | d in s.dims :: DimIs(link, s.ts, d, s.dims[d]))
    + (set m | m in s.mark :: MarkIs(link, s.ts, m, s.mark[m]))
  }

  function Facts(samples: set<(LinkKey, Sample)>): set<Fact> {
    set x, f | x in samples && f in FactsOf(x.0, x.1) :: f
  }

  lemma DatedFacts(link: LinkKey, s: Sample, facts: set<Fact>)
    requires FactsOf(link, s) <= facts && s.ts > 0
    ensures FactsOf(link, s) <= Dated(facts)
  {
  }

  function LogFacts(log: seq<Entry>): set<Fact> {
    set e, f | e in log && f in FactsOf(e.link, e.s) :: f
  }

  /** The facts about a second the store takes samples of: it refuses time zero. */
  function Dated(facts: set<Fact>): set<Fact> { set f | f in facts && f.ts > 0 }

  /** No second has two values of one dimension: samples of the same link and
      second agree on any dimension both carry. */
  ghost predicate Consistent(facts: set<Fact>) {
    forall a, b :: a in facts && b in facts ==> !Contradict(a, b)
  }

  predicate Contradict(a: Fact, b: Fact) {
    || (a.DimIs? && b.DimIs? && a.link == b.link && a.ts == b.ts && a.d == b.d && a.v != b.v)
    || (a.MarkIs? && b.MarkIs? && a.link == b.link && a.ts == b.ts && a.m == b.m && a.c != b.c)
  }

  lemma DatedIsConsistent(facts: set<Fact>)
    requires Consistent(facts)
    ensures Consistent(Dated(facts))
  {
  }

  /** `x` carries at least what `s` does. */
  predicate Dominates(x: Sample, s: Sample) {
    x.ts == s.ts && s.dims.Keys <= x.dims.Keys && s.mark.Keys <= x.mark.Keys
    && s.util <= x.util && s.state <= x.state
  }

  ghost predicate Logged(log: seq<Entry>, link: LinkKey, x: Sample) {
    exists e :: e in log && e.link == link && e.s == x
  }

  ghost predicate Covered(r: Ring, s: Sample) {
    s.ts <= r.floor || exists x :: x in r.samples && Dominates(x, s)
  }

  /** A link's ring against the log: everything held was logged and states only
      known facts, and everything logged is covered or behind the floor. */
  ghost predicate LinkInv(r: Ring, log: seq<Entry>, link: LinkKey, facts: set<Fact>) {
    && RingOk(r)
    && (forall x :: x in r.samples ==> FactsOf(link, x) <= facts && Logged(log, link, x))
    && (forall e :: e in log && e.link == link ==> Covered(r, e.s))
  }

  lemma MergeFacts(link: LinkKey, prev: Sample, s: Sample)
    requires prev.ts == s.ts
    ensures FactsOf(link, MergedWith(prev, s)) <= FactsOf(link, prev) + FactsOf(link, s)
    ensures Dominates(MergedWith(prev, s), prev) && Dominates(MergedWith(prev, s), s)
  {
  }

  /** A merge that changes the sample states something the old one did not. */
  lemma MergeAddsFact(link: LinkKey, prev: Sample, s: Sample, facts: set<Fact>) returns (f: Fact)
    requires prev.ts == s.ts && MergedWith(prev, s) != prev
    requires FactsOf(link, prev) <= facts && FactsOf(link, s) <= facts && Consistent(facts)
    ensures f in FactsOf(link, MergedWith(prev, s)) && f.link == link && f.ts == prev.ts
    ensures forall e: Sample :: Dominates(prev, e) ==> f !in FactsOf(link, e)
  {
    hide *;
    f := NewFact(link, prev, s, facts);
    NewFactIsBeyond(link, prev, f);
    NewFactIsMerged(link, prev, s, f);
  }

  /** A fact that nothing dominated by `prev` can state. */
  predicate Beyond(prev: Sample, f: Fact) {
    match f
    case Second(_, _) => false
    case DimIs(_, _, d, _) => d !in prev.dims
    case MarkIs(_, _, m, _) => m !in prev.mark
    case UtilIs(_, _, u) => prev.util < u
    case StateIs(_, _, code) => prev.state < code
  }

  lemma NewFact(link: LinkKey, prev: Sample, s: Sample, facts: set<Fact>) returns (f: Fact)
    requires prev.ts == s.ts && MergedWith(prev, s) != prev
    requires FactsOf(link, prev) <= facts && FactsOf(link, s) <= facts && Consistent(facts)
    ensures Beyond(prev, f) && f in FactsOf(link, s) && f.link == link && f.ts == prev.ts
  {
    hide MergedWith, Consistent;
    if d :| d in s.dims && d !in prev.dims {
      f := DimIs(link, prev.ts, d, s.dims[d]);
    } else if m :| m in s.mark && m !in prev.mark {
      f := MarkIs(link, prev.ts, m, s.mark[m]);
    } else if prev.util < s.util {
      f := UtilIs(link, prev.ts, s.util);
    } else if prev.state < s.state {
      f := StateIs(link, prev.ts, s.state);
    } else {
      NothingNew(link, prev, s, facts);
      f := Second(link, prev.ts);
    }
  }

  lemma NewFactIsBeyond(link: LinkKey, prev: Sample, f: Fact)
    requires Beyond(prev, f)
    ensures forall e: Sample :: Dominates(prev, e) ==> f !in FactsOf(link, e)
  {
  }

  lemma NewFactIsMerged(link: LinkKey, prev: Sample, s: Sample, f: Fact)
    requires Beyond(prev, f) && f in FactsOf(link, s) && prev.ts == s.ts
    ensures f in FactsOf(link, MergedWith(prev, s))
  {
  }

  lemma NothingNew(link: LinkKey, prev: Sample, s: Sample, facts: set<Fact>)
    requires prev.ts == s.ts
    requires FactsOf(link, prev) <= facts && FactsOf(link, s) <= facts && Consistent(facts)
    requires s.dims.Keys <= prev.dims.Keys && s.mark.Keys <= prev.mark.Keys
    requires s.util <= prev.util && s.state <= prev.state
    ensures MergedWith(prev, s) == prev
  {
    forall d | d in s.dims ensures s.dims[d] == prev.dims[d] {
      assert DimIs(link, s.ts, d, s.dims[d]) in facts && DimIs(link, prev.ts, d, prev.dims[d]) in facts;
    }
    forall m | m in s.mark ensures s.mark[m] == prev.mark[m] {
      assert MarkIs(link, s.ts, m, s.mark[m]) in facts && MarkIs(link, prev.ts, m, prev.mark[m]) in facts;
    }
    assert prev.dims + s.dims == prev.dims && prev.mark + s.mark == prev.mark;
  }

  /** An accepted offer keeps the link's invariant and logs a fact no entry stated. */
  lemma AcceptedOfferAddsFact(r: Ring, log: seq<Entry>, link: LinkKey, s: Sample, num: nat, facts: set<Fact>)
    requires LinkInv(r, log, link, facts) && Consistent(facts) && FactsOf(link, s) <= facts
    ensures var (r', out) := Offer(r, s);
            && (out.Rejected? ==> LinkInv(r', log, link, facts))
            && (!out.Rejected? ==>
                  var e := Entry(num, link, Stored(out, s));
                  && LinkInv(r', log + [e], link, facts)
                  && FactsOf(link, e.s) <= facts
                  && exists f :: f in FactsOf(link, e.s) && f !in LogFacts(log))
  {
    hide Offer, MergedWith, Sorted, Times, FactsOf, Consistent, LogFacts, InsertStep, MergeStep, RejectStep, LinkInv;
    assert RingOk(r) by { LinkInvRing(r, log, link, facts); }
    OfferEffect(r, s);
    var (r', out) := Offer(r, s);
    match out
    case Rejected =>
    case Inserted =>
      InsertAddsFact(r, r', log, link, s, num, facts);
    case Merged(prev, now) =>
      MergeStepAddsFact(r, r', log, link, s, prev, now, num, facts);
  }

  lemma LinkInvRing(r: Ring, log: seq<Entry>, link: LinkKey, facts: set<Fact>)
    requires LinkInv(r, log, link, facts)
    ensures RingOk(r)
  {
  }

  lemma InsertAddsFact(r: Ring, r': Ring, log: seq<Entry>, link: LinkKey, s: Sample, num: nat, facts: set<Fact>)
    requires LinkInv(r, log, link, facts) && FactsOf(link, s) <= facts
    requires InsertStep(r, s, r') && RingOk(r')
    ensures LinkInv(r', log + [Entry(num, link, s)], link, facts)
    ensures exists f :: f in FactsOf(link, s) && f !in LogFacts(log)
  {
    hide FactsOf, LogFacts, Sorted, Times, Covered, RingOk;
    var e := Entry(num, link, s);
    var log' := log + [e];
    assert forall o :: o in log' <==> o in log || o == e;
    InsertFloor(r, s, r');
    forall o | o in log' && o.link == link ensures Covered(r', o.s) {
      InsertCovers(r, r', s, o.s, o == e);
    }
    forall x | x in r'.samples ensures FactsOf(link, x) <= facts && Logged(log', link, x) {
      if x == s {
        assert e in log' && e.s == x;
      } else {
        var o :| o in log && o.link == link && o.s == x;
        assert o in log';
      }
    }
    forall o | o in log && o.link == link ensures o.s.ts != s.ts {
      NewSecondIsUncovered(r, s, o.s);
    }
    NewSecondIsNewFact(log, link, s);
  }

  lemma NewSecondIsUncovered(r: Ring, s: Sample, o: Sample)
    requires r.floor < s.ts && s.ts !in Times(r.samples) && Covered(r, o)
    ensures o.ts != s.ts
  {
    TimesAreMembers(r.samples);
  }

  lemma InsertCovers(r: Ring, r': Ring, s: Sample, o: Sample, isNew: bool)
    requires RingOk(r) && InsertStep(r, s, r') && r.floor <= r'.floor
    requires if isNew then o == s else Covered(r, o)
    ensures Covered(r', o)
  {
    hide Times, Sorted;
    if isNew {
      assert s in r'.samples && Dominates(s, s);
    } else if !(o.ts <= r.floor) {
      var x :| x in r.samples && Dominates(x, o);
      assert x in r'.samples || x == r.samples[0];
    }
  }

  lemma NewSecondIsNewFact(log: seq<Entry>, link: LinkKey, s: Sample)
    requires forall o :: o in log && o.link == link ==> o.s.ts != s.ts
    ensures exists f :: f in FactsOf(link, s) && f !in LogFacts(log)
  {
    assert Second(link, s.ts) in FactsOf(link, s);
  }

  lemma MergeStepAddsFact(r: Ring, r': Ring, log: seq<Entry>, link: LinkKey, s: Sample,
                          prev: Sample, now: Sample, num: nat, facts: set<Fact>)
    requires LinkInv(r, log, link, facts) && Consistent(facts) && FactsOf(link, s) <= facts
    requires MergeStep(r, s, r', prev, now) && RingOk(r')
    ensures LinkInv(r', log + [Entry(num, link, now)], link, facts)
    ensures FactsOf(link, now) <= facts
    ensures exists f :: f in FactsOf(link, now) && f !in LogFacts(log)
  {
    hide FactsOf, LogFacts, Sorted, Times, Consistent, Dominates;
    var e := Entry(num, link, now);
    var log' := log + [e];
    assert forall o :: o in log' <==> o in log || o == e;
    MergeFacts(link, prev, s);
    var f := MergeAddsFact(link, prev, s, facts);
    OneSamplePerSecond(r, prev);
    hide MergedWith;
    assert now in r'.samples;
    forall o | o in log' && o.link == link ensures Covered(r', o.s) {
      MergeCovered(r, r', s, prev, now, o.s, o == e);
    }
    forall x | x in r'.samples ensures FactsOf(link, x) <= facts && Logged(log', link, x) {
      if x == now {
        assert e in log' && e.s == x;
      } else {
        var o :| o in log && o.link == link && o.s == x;
        assert o in log';
      }
    }
    forall o | o in log && o.link == link && o.s.ts == prev.ts ensures Dominates(prev, o.s) {
      CoveredByHolder(r, prev, o.s);
    }
    FactIsNew(log, link, prev, f);
  }

  lemma CoveredByHolder(r: Ring, prev: Sample, o: Sample)
    requires RingOk(r) && prev in r.samples && o.ts == prev.ts && Covered(r, o)
    ensures Dominates(prev, o)
  {
  }

  lemma MergeCovered(r: Ring, r': Ring, s: Sample, prev: Sample, now: Sample, o: Sample, isNew: bool)
    requires RingOk(r) && MergeStep(r, s, r', prev, now) && Dominates(now, prev)
    requires if isNew then o == now else Covered(r, o)
    ensures Covered(r', o)
  {
  }

  lemma FactIsNew(log: seq<Entry>, link: LinkKey, prev: Sample, f: Fact)
    requires forall e: Sample :: Dominates(prev, e) ==> f !in FactsOf(link, e)
    requires forall o :: o in log && o.link == link && o.s.ts == prev.ts ==> Dominates(prev, o.s)
    requires f.link == link && f.ts == prev.ts
    ensures f !in LogFacts(log)
  {
  }

  // ── The whole member ─────────────────────────────────────────────────────

  ghost predicate MemberInv(m: Member, facts: set<Fact>) {
    && LogOk(m)
    && (forall link :: LinkInv(LinkOf(m.store, link).ring, m.log, link, facts))
    && LogFacts(m.log) <= facts
    && |m.log| <= |LogFacts(m.log)|
  }

  lemma LogFactsMore(log: seq<Entry>, e: Entry)
    ensures LogFacts(log + [e]) == LogFacts(log) + FactsOf(e.link, e.s)
  {
  }

  lemma OtherLinkInv(r: Ring, log: seq<Entry>, e: Entry, link: LinkKey, facts: set<Fact>)
    requires LinkInv(r, log, link, facts) && e.link != link
    ensures LinkInv(r, log + [e], link, facts)
  {
  }

  lemma TakenKeepsInv(m: Member, link: LinkKey, s: Sample, facts: set<Fact>)
    requires MemberInv(m, facts) && Consistent(facts) && (s.ts > 0 ==> FactsOf(link, s) <= facts)
    ensures MemberInv(Taken(m, link, s), facts)
  {
    hide Offer, Accept, LinkInv, FactsOf, LogFacts, LinkOf, Consistent, Ingested;
    var m', ring := Taken(m, link, s), LinkOf(m.store, link).ring;
    TakenKeepsLog(m, link, s);
    if s.ts > 0 {
      AcceptedOfferAddsFact(ring, m.log, link, s, m.store.next, facts);
    } else {
      TimeZeroIsRejected(ring, s);
    }
    forall k ensures LinkInv(LinkOf(m'.store, k).ring, m'.log, k, facts) {
      IngestLink(m.store, link, s, k);
      if k == link {
        AcceptRing(LinkOf(m.store, link), s);
      } else if |m'.log| > |m.log| {
        OtherLinkInv(LinkOf(m.store, k).ring, m.log, m'.log[|m.log|], k, facts);
      }
    }
    if |m'.log| > |m.log| {
      var e := m'.log[|m.log|];
      LogFactsMore(m.log, e);
      var f :| f in FactsOf(link, e.s) && f !in LogFacts(m.log);
      SubsetSize(LogFacts(m.log) + {f}, LogFacts(m'.log));
    }
  }

  lemma TimeZeroIsRejected(r: Ring, s: Sample)
    requires s.ts == 0
    ensures Offer(r, s) == (r, Rejected)
  {
  }

  lemma AcceptRing(l: LinkState, s: Sample)
    ensures Accept(l, s).ring == Offer(l.ring, s).0
  {
  }

  lemma {:induction false} TakenAllKeepsInv(m: Member, delta: seq<(LinkKey, Sample)>, facts: set<Fact>)
    requires MemberInv(m, facts) && Consistent(facts)
    requires forall x :: x in delta && x.1.ts > 0 ==> FactsOf(x.0, x.1) <= facts
    ensures MemberInv(TakenAll(m, delta), facts)
    decreases |delta|
  {
    hide MemberInv, Taken, FactsOf, Consistent;
    if delta != [] {
      TakenAllKeepsInv(m, delta[..|delta| - 1], facts);
      TakenKeepsInv(TakenAll(m, delta[..|delta| - 1]), delta[|delta| - 1].0, delta[|delta| - 1].1, facts);
    }
  }

  lemma RetainedKeepsInv(m: Member, rawCut: nat, aggCut: nat, facts: set<Fact>)
    requires MemberInv(m, facts)
    ensures MemberInv(Retained(m, rawCut, aggCut), facts)
  {
    hide LinkInv, FactsOf, LogFacts, LinkOf, Pruned;
    RetainedKeepsLog(m, rawCut, aggCut);
    forall k ensures LinkInv(LinkOf(Pruned(m.store, rawCut, aggCut), k).ring, m.log, k, facts) {
      PruneLink(m.store, rawCut, aggCut, k);
      PruneKeepsLinkInv(LinkOf(m.store, k).ring, rawCut, m.log, k, facts);
    }
  }

  lemma PruneKeepsLinkInv(r: Ring, cut: nat, log: seq<Entry>, link: LinkKey, facts: set<Fact>)
    requires LinkInv(r, log, link, facts)
    ensures LinkInv(PruneRing(r, cut), log, link, facts)
  {
    hide FactsOf, RingOk, Dominates, Times, PruneRing, Logged, Covered;
    PruneEffect(r, cut);
    forall e | e in log && e.link == link ensures Covered(PruneRing(r, cut), e.s) {
      PruneCovers(r, cut, e.s);
    }
  }

  lemma PruneCovers(r: Ring, cut: nat, s: Sample)
    requires RingOk(r) && Covered(r, s)
    ensures Covered(PruneRing(r, cut), s)
  {
    hide Dominates, Times, PruneRing;
    PruneEffect(r, cut);
    if !(s.ts <= r.floor) {
      var x :| x in r.samples && Dominates(x, s);
      DominatesTime(x, s);
    }
  }

  lemma DominatesTime(x: Sample, s: Sample)
    requires Dominates(x, s)
    ensures x.ts == s.ts
  {
  }

  lemma NewMemberInv(facts: set<Fact>)
    ensures MemberInv(NEW_MEMBER, facts)
  {
  }

  /** However samples arrive, a member numbers at most one entry per fact stated. */
  lemma LogIsBounded(m: Member, facts: set<Fact>)
    requires MemberInv(m, facts)
    ensures m.store.next <= |facts| + 1
  {
    SubsetSize(LogFacts(m.log), facts);
  }
}
