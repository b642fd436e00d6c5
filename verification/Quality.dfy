/** Quality classes (crates/controller/src/quality.rs) and the pair merge
    (crates/controller/src/classifier.rs, `merge_pair` and `pair_links`). */
module Quality {
  import opened Core
  import opened Samples

  datatype Quality = Good | Acceptable | Poor | Bad {
    function Rank(): nat {
      match this
      case Good => 0
      case Acceptable => 1
      case Poor => 2
      case Bad => 3
    }
  }

  function OfRank(r: nat): Quality {
    match r
    case 0 => Good
    case 1 => Acceptable
    case 2 => Poor
    case _ => Bad
  }

  function WorseClass(a: Quality, b: Quality): Quality { if a.Rank() >= b.Rank() then a else b }

  /** What a view can carry. The implied rate is scored like a measured TCP rate; the
      passive loss is merged but not scored, the passive rate neither. */
  datatype Metric =
    | RttMs | LossPct | JitterMs | TcpMbps | UdpMbps | UdpLossPct | UdpJitterMs
    | ImpliedMbps | PassiveLoss | PassiveRate

  /** One class: its thresholds, where set, and its OSPF cost. */
  datatype Class = Class(thresholds: map<Metric, real>, cost: nat)

  datatype Classes = Classes(good: Class, acceptable: Class, poor: Class, bad: Class)

  datatype View = View(ts: nat, state: nat, util: real, metrics: map<Metric, real>) {
    /** Whether the window holds a current always-tier measurement. */
    predicate Measured() { RttMs in metrics || LossPct in metrics || JitterMs in metrics }
  }

  function CostForQuality(cfg: Classes, q: Quality): nat {
    match q
    case Good => cfg.good.cost
    case Acceptable => cfg.acceptable.cost
    case Poor => cfg.poor.cost
    case Bad => cfg.bad.cost
  }

  /** Whose threshold a metric is held against. */
  function ThresholdOf(m: Metric): Metric { if m == ImpliedMbps then TcpMbps else m }

  /** Rates are good when high; everything else when low. */
  predicate LowerIsWorse(m: Metric) { m == TcpMbps || m == UdpMbps || m == ImpliedMbps }

  function Limit(c: Class, m: Metric): Option<real> {
    if ThresholdOf(m) in c.thresholds then Some(c.thresholds[ThresholdOf(m)]) else None
  }

  function Limits(cfg: Classes, m: Metric): seq<Option<real>> {
    [Limit(cfg.good, m), Limit(cfg.acceptable, m), Limit(cfg.poor, m), Limit(cfg.bad, m)]
  }

  predicate Crosses(lower: bool, value: real, limit: Option<real>) {
    limit.Some? && if lower then value < limit.value else value > limit.value
  }

  /** The score is one past the last class whose limit is crossed, at most 3. */
  predicate IsScore(lower: bool, value: real, limits: seq<Option<real>>, score: nat) {
    && score <= 3
    && (forall i :: 0 <= i < |limits| && Crosses(lower, value, limits[i]) ==> Min(i + 1, 3) <= score)
    && (score > 0 ==> exists i :: 0 <= i < |limits| && Crosses(lower, value, limits[i]) && score == Min(i + 1, 3))
  }

  function Score(lower: bool, value: real, limits: seq<Option<real>>): (score: nat)
    ensures IsScore(lower, value, limits, score)
    decreases |limits|
  {
    if limits == [] then 0
    else
      var i := |limits| - 1;
      var front := Score(lower, value, limits[..i]);
      assert forall j :: 0 <= j < i ==> limits[j] == limits[..i][j];
      if Crosses(lower, value, limits[i]) then Min(i + 1, 3) else front
  }

  /** `score_upper`. */
  method ScoreUpper(value: real, limits: seq<Option<real>>) returns (score: nat)
    ensures IsScore(false, value, limits, score)
  {
    score := 0;
    for i := 0 to |limits|
      invariant forall j :: 0 <= j < i && Crosses(false, value, limits[j]) ==> j + 1 <= score
      invariant score > 0 ==> score <= i && Crosses(false, value, limits[score - 1])
    {
      if limits[i].Some? && value > limits[i].value {
        score := Max(score, i + 1);
      }
    }
    score := Min(score, 3);
  }

  /** `score_lower`. */
  method ScoreLower(value: real, limits: seq<Option<real>>) returns (score: nat)
    ensures IsScore(true, value, limits, score)
  {
    score := 0;
    for i := 0 to |limits|
      invariant forall j :: 0 <= j < i && Crosses(true, value, limits[j]) ==> j + 1 <= score
      invariant score > 0 ==> score <= i && Crosses(true, value, limits[score - 1])
    {
      if limits[i].Some? && value < limits[i].value {
        score := Max(score, i + 1);
      }
    }
    score := Min(score, 3);
  }

  lemma ScoreIsUnique(lower: bool, value: real, limits: seq<Option<real>>, a: nat, b: nat)
    requires IsScore(lower, value, limits, a) && IsScore(lower, value, limits, b)
    ensures a == b
  {
  }

  const SCORED: seq<Metric> := [RttMs, LossPct, JitterMs, TcpMbps, UdpMbps, UdpLossPct, UdpJitterMs, ImpliedMbps]

  /** A dimension without a value does not constrain. */
  function MetricScore(cfg: Classes, view: View, m: Metric): nat {
    if m in view.metrics then Score(LowerIsWorse(m), view.metrics[m], Limits(cfg, m)) else 0
  }

  function WorstScore(cfg: Classes, view: View, ms: seq<Metric>): nat
    decreases |ms|
  {
    if ms == [] then 0
    else Max(WorstScore(cfg, view, ms[..|ms| - 1]), MetricScore(cfg, view, ms[|ms| - 1]))
  }

  function Classified(cfg: Classes, view: View): Quality { OfRank(WorstScore(cfg, view, SCORED)) }

  /** `classify_window`: score every dimension, worst wins. */
  method ClassifyWindow(cfg: Classes, view: View) returns (q: Quality)
    ensures q == Classified(cfg, view)
  {
    var worst := 0;
    for i := 0 to |SCORED|
      invariant worst == WorstScore(cfg, view, SCORED[..i])
    {
      var m := SCORED[i];
      if m in view.metrics {
        var score;
        if LowerIsWorse(m) {
          score := ScoreLower(view.metrics[m], Limits(cfg, m));
        } else {
          score := ScoreUpper(view.metrics[m], Limits(cfg, m));
        }
        ScoreIsUnique(LowerIsWorse(m), view.metrics[m], Limits(cfg, m), score, MetricScore(cfg, view, m));
        worst := Max(worst, score);
      }
      assert SCORED[..i + 1][..i] == SCORED[..i];
    }
    assert SCORED[..|SCORED|] == SCORED;
    q := OfRank(worst);
  }

  lemma {:induction false} WorstIsReached(cfg: Classes, view: View, ms: seq<Metric>)
    ensures forall m :: m in ms ==> MetricScore(cfg, view, m) <= WorstScore(cfg, view, ms)
    ensures WorstScore(cfg, view, ms) > 0 ==>
              exists m :: m in ms && MetricScore(cfg, view, m) == WorstScore(cfg, view, ms)
    ensures WorstScore(cfg, view, ms) <= 3
    decreases |ms|
  {
    if ms != [] {
      var front, last := ms[..|ms| - 1], ms[|ms| - 1];
      assert ms == front + [last];
      WorstIsReached(cfg, view, front);
      if WorstScore(cfg, view, front) > 0 {
        var m :| m in front && MetricScore(cfg, view, m) == WorstScore(cfg, view, front);
        assert m in ms;
      }
    }
  }

  /** A value across a class's limit leaves no better rank than the class after it. */
  predicate Demotes(cfg: Classes, m: Metric, value: real, rank: nat) {
    && (Crosses(LowerIsWorse(m), value, Limit(cfg.good, m)) ==> rank >= 1)
    && (Crosses(LowerIsWorse(m), value, Limit(cfg.acceptable, m)) ==> rank >= 2)
    && (Crosses(LowerIsWorse(m), value, Limit(cfg.poor, m)) ==> rank >= 3)
    && (Crosses(LowerIsWorse(m), value, Limit(cfg.bad, m)) ==> rank >= 3)
  }

  /** The class of a view is the worst its dimensions were demoted to: good exactly
      when no set limit of any class is crossed, and at least the class after any
      class whose limit is. An implied rate is held against the TCP limits. */
  lemma WorstCrossedClassWins(cfg: Classes, view: View)
    ensures Classified(cfg, view) == Good <==>
              forall m, i :: m in SCORED && m in view.metrics && 0 <= i < 4 ==>
                !Crosses(LowerIsWorse(m), view.metrics[m], Limits(cfg, m)[i])
    ensures forall m :: m in SCORED && m in view.metrics ==>
              Demotes(cfg, m, view.metrics[m], Classified(cfg, view).Rank())
    ensures Limits(cfg, ImpliedMbps) == Limits(cfg, TcpMbps)
  {
    WorstIsReached(cfg, view, SCORED);
    hide WorstScore, Limit, Crosses, LowerIsWorse, Score;
    forall m | m in SCORED && m in view.metrics
      ensures Demotes(cfg, m, view.metrics[m], Classified(cfg, view).Rank())
    {
      ScoreNamesTheClass(cfg, view, m);
    }
    if WorstScore(cfg, view, SCORED) > 0 {
      var m :| m in SCORED && MetricScore(cfg, view, m) == WorstScore(cfg, view, SCORED);
      assert m in view.metrics;
    } else {
      forall m, i | m in SCORED && m in view.metrics && 0 <= i < 4
        ensures !Crosses(LowerIsWorse(m), view.metrics[m], Limits(cfg, m)[i])
      {
        assert MetricScore(cfg, view, m) == 0;
      }
    }
    SameLimits(cfg);
  }

  /** A value beyond the limit a class sets: a rate under it, measured TCP's for an
      implied rate; anything else over it. Passive loss and rate have none. */
  predicate Beyond(c: Class, m: Metric, value: real) {
    match m
    case TcpMbps => TcpMbps in c.thresholds && value < c.thresholds[TcpMbps]
    case ImpliedMbps => TcpMbps in c.thresholds && value < c.thresholds[TcpMbps]
    case UdpMbps => UdpMbps in c.thresholds && value < c.thresholds[UdpMbps]
    case PassiveLoss => false
    case PassiveRate => false
    case _ => m in c.thresholds && value > c.thresholds[m]
  }

  predicate Fails(c: Class, view: View) { exists m :: m in view.metrics && Beyond(c, m, view.metrics[m]) }

  /** The rank the classes it fails leave a value. */
  function RankAfter(good: bool, acceptable: bool, poor: bool, bad: bool): nat {
    if bad || poor then 3 else if acceptable then 2 else if good then 1 else 0
  }

  /** The class, told from the limits: the one after the last class the view fails. */
  lemma ClassIsAfterTheLastFailed(cfg: Classes, view: View)
    ensures Classified(cfg, view)
         == if Fails(cfg.bad, view) || Fails(cfg.poor, view) then Bad
            else if Fails(cfg.acceptable, view) then Poor
            else if Fails(cfg.good, view) then Acceptable
            else Good
  {
    hide WorstScore, MetricScore, Beyond;
    WorstIsReached(cfg, view, SCORED);
    forall m | m in view.metrics ensures ScoredBy(cfg, view, m) {
      ScoreIsAfterTheLastFailed(cfg, view, m);
    }
    if WorstScore(cfg, view, SCORED) > 0 {
      var m :| m in SCORED && MetricScore(cfg, view, m) == WorstScore(cfg, view, SCORED);
      ScoreIsAfterTheLastFailed(cfg, view, m);
    }
  }

  predicate ScoredBy(cfg: Classes, view: View, m: Metric) {
    if m in view.metrics then
      var v := view.metrics[m];
      (if m in SCORED then MetricScore(cfg, view, m) else 0)
      == RankAfter(Beyond(cfg.good, m, v), Beyond(cfg.acceptable, m, v), Beyond(cfg.poor, m, v), Beyond(cfg.bad, m, v))
    else MetricScore(cfg, view, m) == 0
  }

  lemma ScoreIsAfterTheLastFailed(cfg: Classes, view: View, m: Metric)
    ensures ScoredBy(cfg, view, m)
  {
    hide Score;
    if m in view.metrics && m in SCORED {
      CrossesIsBeyond(cfg.good, m, view.metrics[m]);
      CrossesIsBeyond(cfg.acceptable, m, view.metrics[m]);
      CrossesIsBeyond(cfg.poor, m, view.metrics[m]);
      CrossesIsBeyond(cfg.bad, m, view.metrics[m]);
      var limits := Limits(cfg, m);
      assert limits[0] == Limit(cfg.good, m) && limits[1] == Limit(cfg.acceptable, m);
      assert limits[2] == Limit(cfg.poor, m) && limits[3] == Limit(cfg.bad, m);
      hide Limit, Crosses, LowerIsWorse, Beyond;
    }
  }

  lemma CrossesIsBeyond(c: Class, m: Metric, value: real)
    requires m in SCORED
    ensures Crosses(LowerIsWorse(m), value, Limit(c, m)) == Beyond(c, m, value)
  {
  }

  lemma SameLimits(cfg: Classes)
    ensures Limits(cfg, ImpliedMbps) == Limits(cfg, TcpMbps)
  {
  }

  lemma ScoreNamesTheClass(cfg: Classes, view: View, m: Metric)
    requires m in view.metrics
    ensures Demotes(cfg, m, view.metrics[m], MetricScore(cfg, view, m))
  {
    hide Limit, Crosses, LowerIsWorse, Score;
    var limits := Limits(cfg, m);
    assert limits[0] == Limit(cfg.good, m) && limits[1] == Limit(cfg.acceptable, m);
    assert limits[2] == Limit(cfg.poor, m) && limits[3] == Limit(cfg.bad, m);
  }

  /** With costs ascending by class, a worse class never costs less. */
  lemma WorseClassCostsNoLess(cfg: Classes, a: Quality, b: Quality)
    requires cfg.good.cost <= cfg.acceptable.cost <= cfg.poor.cost <= cfg.bad.cost
    requires a.Rank() <= b.Rank()
    ensures CostForQuality(cfg, a) <= CostForQuality(cfg, b)
  {
  }

  // ── Pairs ────────────────────────────────────────────────────────────────

  datatype PairCost = Off | Directional | Symmetric

  /** The worse of two values of a metric; either may be unset. */
  function Worse(m: Metric, a: Option<real>, b: Option<real>): Option<real> {
    if a == None then b
    else if b == None then a
    else Some(if LowerIsWorse(m) then MinReal(a.value, b.value) else MaxReal(a.value, b.value))
  }

  /** What a mode merges from the other half: round-trip dimensions always,
      throughput and passive loss when symmetric. */
  predicate Merges(mode: PairCost, m: Metric) {
    match mode
    case Off => false
    case Directional => m == RttMs || m == LossPct || m == JitterMs
    case Symmetric => m != PassiveRate
  }

  function Get(view: View, m: Metric): Option<real> {
    if m in view.metrics then Some(view.metrics[m]) else None
  }

  function MergePair(own: View, rev: View, mode: PairCost): View {
    own.(metrics := map m | m in own.metrics.Keys + rev.metrics.Keys
                            && (m in own.metrics || Merges(mode, m))
                      :: if Merges(mode, m) then Worse(m, Get(own, m), Get(rev, m)).value else own.metrics[m])
  }

  /** A worse value crosses what either crosses, so it scores as the worse of the two. */
  lemma WorseScoresWorse(m: Metric, a: real, b: real, limits: seq<Option<real>>)
    ensures Score(LowerIsWorse(m), Worse(m, Some(a), Some(b)).value, limits)
         == Max(Score(LowerIsWorse(m), a, limits), Score(LowerIsWorse(m), b, limits))
  {
  }

  lemma MergedScore(cfg: Classes, own: View, rev: View, mode: PairCost, m: Metric)
    ensures MetricScore(cfg, MergePair(own, rev, mode), m)
         == if Merges(mode, m) then Max(MetricScore(cfg, own, m), MetricScore(cfg, rev, m))
            else MetricScore(cfg, own, m)
  {
    hide Score, Limits, LowerIsWorse;
    if Merges(mode, m) && m in own.metrics && m in rev.metrics {
      WorseScoresWorse(m, own.metrics[m], rev.metrics[m], Limits(cfg, m));
    }
  }

  /** What the rest of the scores say about one set of dimensions. */
  lemma {:induction false} MergedWorst(cfg: Classes, own: View, rev: View, mode: PairCost, ms: seq<Metric>)
    requires PassiveRate !in ms
    ensures WorstScore(cfg, own, ms) <= WorstScore(cfg, MergePair(own, rev, mode), ms)
    ensures mode == Symmetric ==>
              WorstScore(cfg, MergePair(own, rev, mode), ms) == Max(WorstScore(cfg, own, ms), WorstScore(cfg, rev, ms))
    ensures mode == Off ==> WorstScore(cfg, MergePair(own, rev, mode), ms) == WorstScore(cfg, own, ms)
    ensures WorstScore(cfg, own, ms) <= 3
    decreases |ms|
  {
    hide MergePair;
    if ms != [] {
      MergedWorst(cfg, own, rev, mode, ms[..|ms| - 1]);
      MergedScore(cfg, own, rev, mode, ms[|ms| - 1]);
    }
  }

  /** A symmetric pair is classified as the worse of its two halves, hence the same
      from either end, whatever the thresholds. */
  lemma PairIsTheWorseHalf(cfg: Classes, own: View, rev: View)
    ensures Classified(cfg, MergePair(own, rev, Symmetric)) == WorseClass(Classified(cfg, own), Classified(cfg, rev))
    ensures Classified(cfg, MergePair(own, rev, Symmetric)) == Classified(cfg, MergePair(rev, own, Symmetric))
  {
    hide MergePair, WorstScore;
    MergedWorst(cfg, own, rev, Symmetric, SCORED);
    MergedWorst(cfg, rev, own, Symmetric, SCORED);
  }

  /** A merge never makes a link look better than its own view, and switched off it
      changes nothing. */
  lemma MergeNeverFlatters(cfg: Classes, own: View, rev: View, mode: PairCost)
    ensures Classified(cfg, own).Rank() <= Classified(cfg, MergePair(own, rev, mode)).Rank()
    ensures mode == Off ==> MergePair(own, rev, mode) == own
  {
    hide MergePair, WorstScore;
    MergedWorst(cfg, own, rev, mode, SCORED);
    OffMergesNothing(own, rev);
  }

  /** The values are the worse of both: of the ones set, the highest, or the lowest. */
  predicate WorseOfBoth(higher: bool, merged: Option<real>, own: Option<real>, rev: Option<real>) {
    && (merged == own || merged == rev)
    && (own.Some? ==> merged.Some? && if higher then merged.value >= own.value else merged.value <= own.value)
    && (rev.Some? ==> merged.Some? && if higher then merged.value >= rev.value else merged.value <= rev.value)
  }

  /** What each mode takes from the other half. State, time and use stay the link's own. */
  lemma MergeMeans(own: View, rev: View, mode: PairCost, m: Metric)
    ensures var v := MergePair(own, rev, mode);
            && v.ts == own.ts && v.state == own.state && v.util == own.util
            && match mode
               case Off => Get(v, m) == Get(own, m)
               case Directional =>
                 if m in {RttMs, LossPct, JitterMs} then WorseOfBoth(true, Get(v, m), Get(own, m), Get(rev, m))
                 else Get(v, m) == Get(own, m)
               case Symmetric =>
                 if m == PassiveRate then Get(v, m) == Get(own, m)
                 else WorseOfBoth(m !in {TcpMbps, UdpMbps, ImpliedMbps}, Get(v, m), Get(own, m), Get(rev, m))
  {
  }

  /** The ping dimensions of a view, with nothing else. */
  function PingsOf(view: View): View {
    view.(metrics := map m | m in view.metrics && (m == RttMs || m == LossPct || m == JitterMs) :: view.metrics[m])
  }

  /** By default a pair is classified as the worse of the link's own view and the pings
      alone of its other half: the other direction's throughput plays no part. */
  lemma DirectionalAddsPings(cfg: Classes, own: View, rev: View)
    ensures Classified(cfg, MergePair(own, rev, Directional))
         == WorseClass(Classified(cfg, own), Classified(cfg, PingsOf(rev)))
  {
    hide MergePair, WorstScore;
    DirectionalWorst(cfg, own, rev, SCORED);
  }

  lemma {:induction false} DirectionalWorst(cfg: Classes, own: View, rev: View, ms: seq<Metric>)
    ensures WorstScore(cfg, MergePair(own, rev, Directional), ms)
         == Max(WorstScore(cfg, own, ms), WorstScore(cfg, PingsOf(rev), ms))
    ensures WorstScore(cfg, own, ms) <= 3 && WorstScore(cfg, PingsOf(rev), ms) <= 3
    decreases |ms|
  {
    hide MergePair, PingsOf;
    if ms != [] {
      DirectionalWorst(cfg, own, rev, ms[..|ms| - 1]);
      MergedScore(cfg, own, rev, Directional, ms[|ms| - 1]);
      PingsScore(cfg, rev, ms[|ms| - 1]);
    }
  }

  lemma PingsScore(cfg: Classes, view: View, m: Metric)
    ensures MetricScore(cfg, PingsOf(view), m) == if Merges(Directional, m) then MetricScore(cfg, view, m) else 0
  {
    hide Score, Limits, LowerIsWorse;
  }

  lemma OffMergesNothing(own: View, rev: View)
    ensures MergePair(own, rev, Off) == own
  {
    assert MergePair(own, rev, Off).metrics == own.metrics;
  }

  /** The links from one node to another, in order. */
  function Between(links: seq<LinkKey>, from: string, to: string): seq<LinkKey>
    decreases |links|
  {
    if links == [] then []
    else
      var l := links[|links| - 1];
      Between(links[..|links| - 1], from, to) + (if l.from == from && l.to == to then [l] else [])
  }

  /** Halves of one tunnel: the only link each way between two nodes. */
  predicate IsPair(links: seq<LinkKey>, l: LinkKey, r: LinkKey) {
    l.from != l.to && Between(links, l.from, l.to) == [l] && Between(links, l.to, l.from) == [r]
  }

  lemma {:induction false} BetweenMembers(links: seq<LinkKey>, from: string, to: string)
    ensures forall l :: l in Between(links, from, to) <==> l in links && l.from == from && l.to == to
    decreases |links|
  {
    if links != [] {
      var front, last := links[..|links| - 1], links[|links| - 1];
      BetweenMembers(front, from, to);
      assert links == front + [last];
    }
  }

  /** Pairing is mutual and joins opposite directions. */
  lemma PairsAreMutual(links: seq<LinkKey>, l: LinkKey, r: LinkKey)
    requires IsPair(links, l, r)
    ensures IsPair(links, r, l) && r.from == l.to && r.to == l.from && l in links && r in links
  {
    BetweenMembers(links, l.from, l.to);
    BetweenMembers(links, l.to, l.from);
    assert r in [r] && l in [l];
  }

  lemma BetweenGrows(links: seq<LinkKey>, i: nat)
    requires i < |links|
    ensures forall from, to :: Between(links[..i + 1], from, to)
              == Between(links[..i], from, to) + if links[i].from == from && links[i].to == to then [links[i]] else []
  {
    assert links[..i + 1][..i] == links[..i];
  }

  /** The first loop of `pair_links`: the links of each direction. */
  method ByDirection(links: seq<LinkKey>) returns (byDir: map<(string, string), seq<LinkKey>>)
    ensures forall d :: (if d in byDir then byDir[d] else []) == Between(links, d.0, d.1)
  {
    byDir := map[];
    for i := 0 to |links|
      invariant forall d :: (if d in byDir then byDir[d] else []) == Between(links[..i], d.0, d.1)
    {
      var l := links[i];
      var d := (l.from, l.to);
      BetweenGrows(links, i);
      hide Between;
      byDir := byDir[d := (if d in byDir then byDir[d] else []) + [l]];
    }
    assert links[..|links|] == links;
  }

  /** `pair_links`. */
  method PairLinks(links: seq<LinkKey>) returns (pairs: map<LinkKey, LinkKey>)
    ensures forall l, r :: l in pairs && pairs[l] == r <==> IsPair(links, l, r)
  {
    hide Between;
    var byDir := ByDirection(links);
    pairs := map[];
    for i := 0 to |links|
      invariant forall l :: l in pairs ==> IsPair(links, l, pairs[l])
      invariant forall j :: 0 <= j < i && Paired(links, links[j]) ==> links[j] in pairs
    {
      var l := links[i];
      var there, back := (l.from, l.to), (l.to, l.from);
      BetweenMembers(links, l.from, l.to);
      if there in byDir && back in byDir && |byDir[there]| == 1 && |byDir[back]| == 1 && l.from != l.to {
        assert l in byDir[there];
        assert byDir[there] == [l] && byDir[back] == [byDir[back][0]];
        pairs := pairs[l := byDir[back][0]];
      }
    }
    forall l, r | IsPair(links, l, r) ensures l in pairs && pairs[l] == r {
      PairsAreMutual(links, l, r);
      var j :| 0 <= j < |links| && links[j] == l;
      assert Paired(links, links[j]);
    }
  }

  ghost predicate Paired(links: seq<LinkKey>, l: LinkKey) {
    exists r :: IsPair(links, l, r)
  }
}
