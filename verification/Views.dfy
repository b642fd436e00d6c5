/** From a link's window and its marking summary to the view it is classified by
    (crates/controller/src/classifier.rs, `classify_once` and `fold_marking`). */
module Views {
  import opened Core
  import opened Samples
  import opened Quality
  import Classifier
  import ControllerMark
  import RateModels
  import Window

  const MEASURED: set<Metric> := {RttMs, LossPct, JitterMs, TcpMbps, UdpMbps, UdpLossPct, UdpJitterMs}

  function Read(w: Window.View, m: Metric): Option<real> {
    match m
    case RttMs => w.rtt
    case LossPct => w.loss
    case JitterMs => w.jitter
    case TcpMbps => w.tcp
    case UdpMbps => w.udp
    case UdpLossPct => w.udpLoss
    case UdpJitterMs => w.udpJitter
    case _ => None
  }

  /** What a window says of a link before its marking is folded in. */
  function OfWindow(w: Window.View): View {
    View(w.ts, w.state, w.util, map m | m in MEASURED && Read(w, m).Some? :: Read(w, m).value)
  }

  function With(view: View, m: Metric, v: Option<real>): View {
    view.(metrics := if v.Some? then view.metrics[m := v.value] else view.metrics - {m})
  }

  /** The rate the measured loss allows at the measured round trip. */
  function Implied(view: View, s: ControllerMark.Summary, model: RateModels.LossModel, mss: nat, root: real)
    : Option<real>
    requires IsRootOf(root, s, model)
  {
    if s.lossPct.Measured? && RttMs in view.metrics
    then RateModels.ImpliedMbps(s.lossPct.pct, view.metrics[RttMs], model, mss, root) else None
  }

  predicate IsRootOf(root: real, s: ControllerMark.Summary, model: RateModels.LossModel) {
    s.lossPct.Measured? && s.lossPct.pct > 0.0 ==> RateModels.IsRoot(root, RateModels.Radicand(model, s.lossPct.pct))
  }

  /** `fold_marking` on the view, for a link with joined blocks. */
  function Folded(view: View, s: ControllerMark.Summary, model: RateModels.LossModel, mss: nat, root: real): View
    requires IsRootOf(root, s, model)
  {
    var loss := if s.lossPct.Measured? then Some(s.lossPct.pct) else None;
    With(With(With(view, PassiveLoss, loss), PassiveRate, s.rateMbps), ImpliedMbps, Implied(view, s, model, mss, root))
  }

  /** What a view says: the window's time, state, use and dimensions as they are, the
      marking's loss where it is measured and its rate, and an implied rate exactly for
      measured loss and round trip, both above 0. */
  lemma ViewTells(w: Window.View, s: ControllerMark.Summary, model: RateModels.LossModel, mss: nat, root: real)
    requires IsRootOf(root, s, model)
    ensures var v := Folded(OfWindow(w), s, model, mss, root);
            && v.ts == w.ts && v.state == w.state && v.util == w.util
            && Get(v, RttMs) == w.rtt && Get(v, LossPct) == w.loss && Get(v, JitterMs) == w.jitter
            && Get(v, TcpMbps) == w.tcp && Get(v, UdpMbps) == w.udp
            && Get(v, UdpLossPct) == w.udpLoss && Get(v, UdpJitterMs) == w.udpJitter
            && (match s.lossPct
                case Measured(pct) => Get(v, PassiveLoss) == Some(pct)
                case _ => Get(v, PassiveLoss) == None)
            && Get(v, PassiveRate) == s.rateMbps
            && (Get(v, ImpliedMbps).Some?
                <==> w.rtt.Some? && w.rtt.value > 0.0 && s.lossPct.Measured? && s.lossPct.pct > 0.0)
            && (Get(v, ImpliedMbps).Some? ==>
                  Get(v, ImpliedMbps) == RateModels.ImpliedMbps(s.lossPct.pct, w.rtt.value, model, mss, root))
  {
    hide RateModels.ImpliedMbps, RateModels.IsRoot, Folded;
    var view := OfWindow(w);
    WindowReads(w);
    FoldReads(view, s, model, mss, root);
    hide OfWindow;
    if s.lossPct.Measured? && w.rtt.Some? {
      RateModels.NoLossNoConstraint(s.lossPct.pct, w.rtt.value, model, mss, root);
    }
  }

  lemma WindowReads(w: Window.View)
    ensures forall m :: Get(OfWindow(w), m) == Read(w, m)
    ensures OfWindow(w).ts == w.ts && OfWindow(w).state == w.state && OfWindow(w).util == w.util
  {
  }

  lemma FoldReads(view: View, s: ControllerMark.Summary, model: RateModels.LossModel, mss: nat, root: real)
    requires IsRootOf(root, s, model)
    ensures var v := Folded(view, s, model, mss, root);
            && v == view.(metrics := v.metrics)
            && Get(v, PassiveLoss) == (if s.lossPct.Measured? then Some(s.lossPct.pct) else None)
            && Get(v, PassiveRate) == s.rateMbps
            && Get(v, ImpliedMbps) == Implied(view, s, model, mss, root)
            && forall m :: m in MEASURED ==> Get(v, m) == Get(view, m)
  {
    hide Implied, IsRootOf;
  }

  // ── Silence ──────────────────────────────────────────────────────────────

  /** The ring has no ping within freshness. */
  predicate Silent(samples: seq<Sample>, spec: Window.Spec, now: nat) {
    forall x :: x in samples && Window.Age(now, x) <= spec.alwaysFresh ==>
      Rtt !in x.dims && Loss !in x.dims && Jitter !in x.dims
  }

  /** The view has the pings of the window of these samples, its marking folded in or not. */
  ghost predicate PingsOf(view: View, samples: seq<Sample>, spec: Window.Spec, now: nat) {
    exists w :: Window.IsWindow(samples, spec, now, Some(w)) && SamePings(view, OfWindow(w))
  }

  predicate SamePings(view: View, o: View) {
    && (RttMs in view.metrics <==> RttMs in o.metrics)
    && (LossPct in view.metrics <==> LossPct in o.metrics)
    && (JitterMs in view.metrics <==> JitterMs in o.metrics)
  }

  lemma FoldKeepsPings(view: View, s: ControllerMark.Summary, model: RateModels.LossModel, mss: nat, root: real)
    requires IsRootOf(root, s, model)
    ensures SamePings(Folded(view, s, model, mss, root), view)
  {
    hide Implied, IsRootOf;
  }

  lemma MeasuredIffPinged(view: View, samples: seq<Sample>, spec: Window.Spec, now: nat)
    requires PingsOf(view, samples, spec, now)
    ensures view.Measured() <==> !Silent(samples, spec, now)
  {
    var w :| Window.IsWindow(samples, spec, now, Some(w)) && SamePings(view, OfWindow(w));
    NewestOrNone(samples, spec, now, Rtt, w.rtt);
    NewestOrNone(samples, spec, now, Loss, w.loss);
    NewestOrNone(samples, spec, now, Jitter, w.jitter);
    hide Window.IsWindow, Window.IsNewestValue;
  }

  lemma NewestOrNone(samples: seq<Sample>, spec: Window.Spec, now: nat, d: Dim, v: Option<real>)
    requires Window.IsNewestValue(samples, now, spec.alwaysFresh, d, v)
    ensures v.Some? <==> exists x :: x in samples && Window.Age(now, x) <= spec.alwaysFresh && d in x.dims
  {
    if v.Some? {
      var x :| Window.IsNewest(samples, now, spec.alwaysFresh, {d}, x);
    } else {
      forall x | x in samples && Window.Age(now, x) <= spec.alwaysFresh ensures d !in x.dims {
        assert !Window.Matches(x, now, spec.alwaysFresh, {d});
        assert d in {d};
      }
    }
  }

  predicate Paired(cfg: Classifier.Settings, views: map<LinkKey, View>, pairs: map<LinkKey, LinkKey>, link: LinkKey) {
    cfg.pairCost != Off && link in pairs && pairs[link] in views
  }

  /** From samples to cost: a link that is not in use is held, class and cost kept,
      exactly when neither its ring nor, under pair costing, that of its paired half
      has a ping within freshness; whatever else their windows carry. */
  lemma SilentLinkIsHeld(cfg: Classifier.Settings, views: map<LinkKey, View>, pairs: map<LinkKey, LinkKey>,
                         rings: map<LinkKey, seq<Sample>>, spec: Window.Spec, link: LinkKey, now: nat,
                         t: Classifier.Track)
    requires link in views && views.Keys <= rings.Keys
    requires forall l :: l in views ==> PingsOf(views[l], rings[l], spec, now)
    requires (views[link].state == 1 || views[link].state == 2) ==> SatSub(now, views[link].ts) >= cfg.busyHoldSecs
    ensures Classifier.PassFor(cfg, views, pairs, link, now).Held?
       <==> (&& Silent(rings[link], spec, now)
             && (Paired(cfg, views, pairs, link) ==> Silent(rings[pairs[link]], spec, now)))
    ensures Classifier.PassFor(cfg, views, pairs, link, now).Held? ==>
              Classifier.Step(cfg, link, t, Classifier.PassFor(cfg, views, pairs, link, now)) == t
  {
    hide PingsOf, Classifier.Step, Silent;
    MeasuredIffPinged(views[link], rings[link], spec, now);
    if link in pairs && pairs[link] in views {
      MeasuredIffPinged(views[pairs[link]], rings[pairs[link]], spec, now);
    }
    SkippedOrHeld(cfg, link, t);
  }

  lemma SkippedOrHeld(cfg: Classifier.Settings, link: LinkKey, t: Classifier.Track)
    ensures Classifier.Step(cfg, link, t, Classifier.Held) == t
  {
  }

  // ── Passive loss bounds the class ────────────────────────────────────────

  /** A lower value crosses every lower limit a higher one does. */
  lemma LowerScoresNoLess(a: real, b: real, limits: seq<Option<real>>)
    requires b <= a
    ensures Score(true, a, limits) <= Score(true, b, limits)
  {
  }

  lemma {:induction false} WorstMono(cfg: Classes, v: View, w: View, ms: seq<Metric>)
    requires forall m :: m in ms ==> MetricScore(cfg, v, m) <= MetricScore(cfg, w, m)
    ensures WorstScore(cfg, v, ms) <= WorstScore(cfg, w, ms)
    decreases |ms|
  {
    hide MetricScore;
    if ms != [] {
      WorstMono(cfg, v, w, ms[..|ms| - 1]);
    }
  }

  lemma ScoresOrderClasses(cfg: Classes, v: View, w: View)
    requires forall m :: m in SCORED ==> MetricScore(cfg, v, m) <= MetricScore(cfg, w, m)
    ensures Classified(cfg, v).Rank() <= Classified(cfg, w).Rank()
  {
    hide MetricScore, WorstScore;
    WorstMono(cfg, v, w, SCORED);
  }

  /** Of what is scored, folding the marking in sets the implied rate only. */
  lemma FoldScores(cfg: Classes, view: View, s: ControllerMark.Summary, model: RateModels.LossModel, mss: nat,
                   root: real, m: Metric)
    requires IsRootOf(root, s, model) && m in SCORED
    ensures Get(Folded(view, s, model, mss, root), m)
         == if m == ImpliedMbps then Implied(view, s, model, mss, root) else Get(view, m)
  {
    hide Implied, IsRootOf;
  }

  /** The more of the link's traffic is lost, the worse or equal its class, all else
      measured alike. */
  lemma MoreLossNeverHelps(cfg: Classes, view: View, model: RateModels.LossModel, mss: nat,
                           s1: ControllerMark.Summary, root1: real, s2: ControllerMark.Summary, root2: real)
    requires s1.lossPct.Measured? && s2.lossPct.Measured? && s1.lossPct.pct <= s2.lossPct.pct
    requires IsRootOf(root1, s1, model) && IsRootOf(root2, s2, model)
    ensures Classified(cfg, Folded(view, s1, model, mss, root1)).Rank()
         <= Classified(cfg, Folded(view, s2, model, mss, root2)).Rank()
  {
    hide Folded, Implied, Limits, LowerIsWorse;
    var v, w := Folded(view, s1, model, mss, root1), Folded(view, s2, model, mss, root2);
    forall m | m in SCORED ensures MetricScore(cfg, v, m) <= MetricScore(cfg, w, m) {
      FoldScores(cfg, view, s1, model, mss, root1, m);
      FoldScores(cfg, view, s2, model, mss, root2, m);
      if m == ImpliedMbps {
        LowerIsWorseTcp();
        ImpliedFalls(view, model, mss, s1, root1, s2, root2);
        var a, b := Implied(view, s1, model, mss, root1), Implied(view, s2, model, mss, root2);
        if a.Some? {
          LowerScoresNoLess(a.value, b.value, Limits(cfg, m));
        }
      }
    }
    ScoresOrderClasses(cfg, v, w);
  }

  lemma LowerIsWorseTcp()
    ensures LowerIsWorse(ImpliedMbps)
  {
  }

  lemma ImpliedFalls(view: View, model: RateModels.LossModel, mss: nat,
                     s1: ControllerMark.Summary, root1: real, s2: ControllerMark.Summary, root2: real)
    requires s1.lossPct.Measured? && s2.lossPct.Measured? && s1.lossPct.pct <= s2.lossPct.pct
    requires IsRootOf(root1, s1, model) && IsRootOf(root2, s2, model)
    ensures var (a, b) := (Implied(view, s1, model, mss, root1), Implied(view, s2, model, mss, root2));
            a.Some? ==> b.Some? && b.value <= a.value
  {
    hide RateModels.ImpliedMbps;
    if RttMs in view.metrics {
      var rtt := view.metrics[RttMs];
      RateModels.NoLossNoConstraint(s1.lossPct.pct, rtt, model, mss, root1);
      RateModels.NoLossNoConstraint(s2.lossPct.pct, rtt, model, mss, root2);
      if s1.lossPct.pct > 0.0 && rtt > 0.0 {
        RateModels.RatesFallWithLossAndRtt(model, mss, s1.lossPct.pct, rtt, root1, s2.lossPct.pct, rtt, root2);
      }
    }
  }

  /** Marking that lost nothing, or could not measure, leaves the class of the window. */
  lemma CleanMarkingKeepsTheClass(cfg: Classes, w: Window.View, s: ControllerMark.Summary, model: RateModels.LossModel,
                                  mss: nat, root: real)
    requires IsRootOf(root, s, model) && (s.lossPct.Measured? ==> s.lossPct.pct <= 0.0)
    ensures Classified(cfg, Folded(OfWindow(w), s, model, mss, root)) == Classified(cfg, OfWindow(w))
  {
    hide Folded, Limits, Score;
    var view := OfWindow(w);
    var v := Folded(view, s, model, mss, root);
    forall m | m in SCORED ensures MetricScore(cfg, v, m) == MetricScore(cfg, view, m) {
      FoldScores(cfg, view, s, model, mss, root, m);
    }
    hide MetricScore, OfWindow, Classified;
    ScoresOrderClasses(cfg, v, view);
    ScoresOrderClasses(cfg, view, v);
    RankNames(Classified(cfg, v), Classified(cfg, view));
  }

  lemma RankNames(a: Quality, b: Quality)
    requires a.Rank() == b.Rank()
    ensures a == b
  {
  }

  /** Loss that allows less than a class's TCP rate demotes the link below the class. */
  lemma PassiveLossBoundsTheClass(cfg: Classes, view: View, s: ControllerMark.Summary, model: RateModels.LossModel,
                                  mss: nat, root: real)
    requires IsRootOf(root, s, model) && Implied(view, s, model, mss, root).Some?
    ensures var (rate, c) := (Implied(view, s, model, mss, root), Classified(cfg, Folded(view, s, model, mss, root)));
            Demotes(cfg, TcpMbps, rate.value, c.Rank())
  {
    hide Folded, Implied, Classified, Crosses;
    FoldScores(cfg, view, s, model, mss, root, ImpliedMbps);
    WorstCrossedClassWins(cfg, Folded(view, s, model, mss, root));
    assert ImpliedMbps in SCORED;
  }
}
