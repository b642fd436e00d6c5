/** The classifier pass (crates/controller/src/classifier.rs, `classify_once`): holds,
    hysteresis and the cost a link advertises. */
module Classifier {
  import opened Core
  import opened Quality
  import Kv
  import LinkHistory
  import Window

  datatype Settings = Settings(classes: Classes, hysteresisPasses: nat, busyHoldSecs: nat,
                               pairCost: PairCost, hubSpokeOffset: nat,
                               hubs: seq<string>, members: set<string>)

  /** A hub is listed under `[cluster] hubs`, or a member when that list is empty. */
  predicate IsHub(cfg: Settings, name: string) {
    if cfg.hubs == [] then name in cfg.members else name in cfg.hubs
  }

  /** `policy_cost`: the class cost, plus the offset from a hub towards a non-hub,
      saturating at 32 bits. */
  function PolicyCost(cfg: Settings, link: LinkKey, q: Quality): nat {
    var base := CostForQuality(cfg.classes, q);
    if IsHub(cfg, link.from) && !IsHub(cfg, link.to) then Min(base + cfg.hubSpokeOffset, U32_MAX) else base
  }

  datatype Policy = Policy(quality: Quality, cost: nat)

  /** A class being confirmed: how many distinct newest timestamps agreed. */
  datatype Pending = Pending(quality: Quality, passes: nat, lastTs: nat)

  datatype Track = Track(last: Option<Policy>, pending: Option<Pending>)

  const NEW_TRACK: Track := Track(None, None)

  /** What one pass makes of a link: nothing to look at, a hold, or a candidate. */
  datatype Pass = Skipped | Held | Fresh(candidate: Quality, ts: nat)

  function PassFor(cfg: Settings, views: map<LinkKey, View>, pairs: map<LinkKey, LinkKey>,
                   link: LinkKey, now: nat): Pass
  {
    if link !in views then Skipped
    else
      var view := views[link];
      if (view.state == 1 || view.state == 2) && SatSub(now, view.ts) < cfg.busyHoldSecs then Held
      else
        var merged := if link in pairs && pairs[link] in views
                      then MergePair(view, views[pairs[link]], cfg.pairCost) else view;
        if !merged.Measured() then Held else Fresh(Classified(cfg.classes, merged), view.ts)
  }

  /** A link in use keeps its class and cost while the hold lasts; so does a link
      neither half of which has a current ping; any other viewed link is classified by
      its own view, with its other half's merged in if it has one, at its own time. */
  lemma HoldsAreForUseAndSilence(cfg: Settings, views: map<LinkKey, View>, pairs: map<LinkKey, LinkKey>,
                                 link: LinkKey, now: nat, t: Track)
    requires link in views
    ensures var v := views[link];
            var inUse := (v.state == 1 || v.state == 2) && SatSub(now, v.ts) < cfg.busyHoldSecs;
            var heard := v.Measured() || (link in pairs && pairs[link] in views && cfg.pairCost != Off
                                          && views[pairs[link]].Measured());
            && (inUse || !heard ==> Step(cfg, link, t, PassFor(cfg, views, pairs, link, now)) == t)
            && (!inUse && heard ==>
                  PassFor(cfg, views, pairs, link, now)
                  == Fresh(if link in pairs && pairs[link] in views
                           then Classified(cfg.classes, MergePair(v, views[pairs[link]], cfg.pairCost))
                           else Classified(cfg.classes, v), v.ts))
  {
    hide Classified;
  }

  /** One step of a link's track. */
  function Step(cfg: Settings, link: LinkKey, t: Track, p: Pass): Track {
    if !p.Fresh? then t
    else if t.last == None then t.(last := Some(Policy(p.candidate, PolicyCost(cfg, link, p.candidate))))
    else
      var held := t.last.value.quality;
      if held == p.candidate then
        Track(Some(Policy(held, PolicyCost(cfg, link, held))), None)
      else
        var entry := Counted(t.pending, p);
        if entry.passes >= Max(cfg.hysteresisPasses, 1)
        then Track(Some(Policy(p.candidate, PolicyCost(cfg, link, p.candidate))), None)
        else Track(Some(Policy(held, PolicyCost(cfg, link, held))), Some(entry))
  }

  /** The confirmation after this candidate: a different one starts over, and a pass
      that re-reads the sample counted last does not count again. */
  function Counted(pending: Option<Pending>, p: Pass): Pending
    requires p.Fresh?
  {
    var entry := if pending.Some? && pending.value.quality == p.candidate
                 then pending.value else Pending(p.candidate, 0, 0);
    if entry.lastTs != p.ts then Pending(entry.quality, entry.passes + 1, p.ts) else entry
  }

  /** The live record of a link under the policy in force. */
  function DerivedFrom(view: View, last: Option<Policy>): Kv.Stamped<Kv.Verdict> {
    Kv.Stamped(view.ts, if last.Some? then Kv.Verdict(view, Some(last.value.quality), Some(last.value.cost))
                        else Kv.Verdict(view, None, None))
  }

  /** What a link's live record says after a pass: one newer than the view stands; else
      it is of the view's time and holds the view, with the class and cost in force, both
      unset exactly for a link never classified. */
  predicate Recorded(before: Kv.Records, after: Kv.Records, link: LinkKey, view: View, last: map<LinkKey, Policy>) {
    && link in after
    && if link in before && before[link].ts > view.ts then after[link] == before[link]
       else
         && after[link].ts == view.ts
         && after[link].body.view == view
         && (link !in last ==> after[link].body.quality == None && after[link].body.cost == None)
         && (link in last ==> after[link].body.quality == Some(last[link].quality)
                              && after[link].body.cost == Some(last[link].cost))
  }

  function InForce(last: map<LinkKey, Policy>, link: LinkKey): Option<Policy> {
    if link in last then Some(last[link]) else None
  }

  lemma DerivedIsRecorded(before: Kv.Records, after: Kv.Records, link: LinkKey, view: View, last: map<LinkKey, Policy>)
    requires At(after, link)
          == At(Kv.Written(before, link, DerivedFrom(view, InForce(last, link))), link)
    ensures Recorded(before, after, link, view, last)
  {
  }

  // ── In place ─────────────────────────────────────────────────────────────

  function At(m: Kv.Records, link: LinkKey): Option<Kv.Stamped<Kv.Verdict>> {
    if link in m then Some(m[link]) else None
  }

  lemma SkippedStays(cfg: Settings, views: map<LinkKey, View>, pairs: map<LinkKey, LinkKey>,
                     link: LinkKey, now: nat, t: Track)
    ensures link !in views ==> Step(cfg, link, t, PassFor(cfg, views, pairs, link, now)) == t
  {
  }

  class ClassifierState {
    var last: map<LinkKey, Policy>
    var pending: map<LinkKey, Pending>
    const kv: Kv.LwwStore

    ghost function TrackOf(link: LinkKey): Track
      reads this
    {
      Track(InForce(last, link),
            if link in pending then Some(pending[link]) else None)
    }

    constructor (kv: Kv.LwwStore)
      ensures forall link :: TrackOf(link) == NEW_TRACK
      ensures this.kv == kv
    {
      this.kv := kv;
      last, pending := map[], map[];
    }

    /** One pass over the links this controller owns. */
    method ClassifyOnce(cfg: Settings, links: seq<LinkKey>, owned: set<LinkKey>, views: map<LinkKey, View>, now: nat)
      requires forall i, j :: 0 <= i < j < |links| ==> links[i] != links[j]
      modifies this, kv`inner
      ensures exists pairs :: (
        && IsPairing(cfg, links, pairs)
        && forall link ::
             TrackOf(link) == if link in links && link in owned
                              then Step(cfg, link, old(TrackOf(link)), PassFor(cfg, views, pairs, link, now))
                              else old(TrackOf(link)))
      ensures forall link :: At(kv.inner, link)
                == if link in links && link in owned && link in views
                   then At(Kv.Written(old(kv.inner), link, DerivedFrom(views[link], TrackOf(link).last)), link)
                   else At(old(kv.inner), link)
      ensures forall link :: link in links && link in owned && link in views ==>
                Recorded(old(kv.inner), kv.inner, link, views[link], last)
    {
      hide PassFor, Step, DerivedFrom, Recorded;
      var pairs := map[];
      if cfg.pairCost != Off {
        pairs := PairLinks(links);
      }
      assert IsPairing(cfg, links, pairs);
      for i := 0 to |links|
        invariant forall link :: TrackOf(link)
                    == if link in links[..i] && link in owned
                       then Step(cfg, link, old(TrackOf(link)), PassFor(cfg, views, pairs, link, now))
                       else old(TrackOf(link))
        invariant forall link :: At(kv.inner, link)
                    == if link in links[..i] && link in owned && link in views
                       then At(Kv.Written(old(kv.inner), link, DerivedFrom(views[link], TrackOf(link).last)), link)
                       else At(old(kv.inner), link)
      {
        var link := links[i];
        assert links[..i + 1] == links[..i] + [link];
        assert link !in links[..i];
        if link in owned && link in views {
          ClassifyLink(cfg, views, pairs, link, now);
        } else {
          SkippedStays(cfg, views, pairs, link, now, TrackOf(link));
        }
      }
      assert links[..|links|] == links;
      forall link | link in links && link in owned && link in views
        ensures Recorded(old(kv.inner), kv.inner, link, views[link], last)
      {
        DerivedIsRecorded(old(kv.inner), kv.inner, link, views[link], last);
      }
    }

    /** The loop body for one owned link with a view. */
    method ClassifyLink(cfg: Settings, views: map<LinkKey, View>, pairs: map<LinkKey, LinkKey>,
                        link: LinkKey, now: nat)
      requires link in views
      modifies this, kv`inner
      ensures TrackOf(link) == Step(cfg, link, old(TrackOf(link)), PassFor(cfg, views, pairs, link, now))
      ensures forall k :: k != link ==> TrackOf(k) == old(TrackOf(k))
      ensures kv.inner == Kv.Written(old(kv.inner), link, DerivedFrom(views[link], TrackOf(link).last))
      ensures Recorded(old(kv.inner), kv.inner, link, views[link], last)
    {
      hide MergePair, Classified, PolicyCost, DerivedFrom, Kv.Written, View.Measured, Recorded;
      var view := views[link];
      if (view.state == 1 || view.state == 2) && SatSub(now, view.ts) < cfg.busyHoldSecs {
        HoldLast(link, view);
        return;
      }
      var classView := view;
      if link in pairs && pairs[link] in views {
        classView := MergePair(view, views[pairs[link]], cfg.pairCost);
      }
      if !classView.Measured() {
        HoldLast(link, view);
        return;
      }
      var candidate := ClassifyWindow(cfg.classes, classView);
      var effective := candidate;
      if link in last {
        if last[link].quality == candidate {
          pending := pending - {link};
        } else {
          var entry := if link in pending then pending[link] else Pending(candidate, 0, 0);
          if entry.quality != candidate {
            entry := Pending(candidate, 0, 0);
          }
          if entry.lastTs != view.ts {
            entry := Pending(entry.quality, entry.passes + 1, view.ts);
          }
          if entry.passes >= Max(cfg.hysteresisPasses, 1) {
            pending := pending - {link};
          } else {
            pending := pending[link := entry];
            effective := last[link].quality;
          }
        }
      }
      last := last[link := Policy(effective, PolicyCost(cfg, link, effective))];
      WriteDerived(link, view, Some(last[link]));
    }

    /** `hold_last`: keep the class and cost, refresh the record. */
    method HoldLast(link: LinkKey, view: View)
      modifies kv`inner
      ensures kv.inner == Kv.Written(old(kv.inner), link, DerivedFrom(view, InForce(last, link)))
      ensures Recorded(old(kv.inner), kv.inner, link, view, last)
    {
      WriteDerived(link, view, InForce(last, link));
    }

    /** `write_derived`. */
    method WriteDerived(link: LinkKey, view: View, policy: Option<Policy>)
      modifies kv`inner
      ensures kv.inner == Kv.Written(old(kv.inner), link, DerivedFrom(view, policy))
      ensures policy == InForce(last, link) ==> Recorded(old(kv.inner), kv.inner, link, view, last)
    {
      var _ := kv.Put(link, DerivedFrom(view, policy));
      if policy == InForce(last, link) {
        DerivedIsRecorded(old(kv.inner), kv.inner, link, view, last);
      }
    }
  }

  /** The pairing a pass uses: none when pair costing is off. */
  ghost predicate IsPairing(cfg: Settings, links: seq<LinkKey>, pairs: map<LinkKey, LinkKey>) {
    if cfg.pairCost == Off then pairs == map[]
    else forall l, r :: l in pairs && pairs[l] == r <==> IsPair(links, l, r)
  }

  // ── Hysteresis over any run of passes ────────────────────────────────────

  function RunTrack(cfg: Settings, link: LinkKey, passes: seq<Pass>): Track
    decreases |passes|
  {
    if passes == [] then NEW_TRACK
    else Step(cfg, link, RunTrack(cfg, link, passes[..|passes| - 1]), passes[|passes| - 1])
  }

  /** The newest-sample times of the classified passes since the candidate last
      differed from c. Holds are looked through. */
  function Streak(passes: seq<Pass>, c: Quality): set<nat>
    decreases |passes|
  {
    if passes == [] then {}
    else
      var before := passes[..|passes| - 1];
      match passes[|passes| - 1]
      case Fresh(candidate, ts) => if candidate == c then Streak(before, c) + {ts} else {}
      case _ => Streak(before, c)
  }

  /** A link's newest-sample time is positive and never goes back. */
  ghost predicate TimesAdvance(passes: seq<Pass>) {
    && (forall i :: 0 <= i < |passes| && passes[i].Fresh? ==> 1 <= passes[i].ts)
    && (forall i, j :: 0 <= i < j < |passes| && passes[i].Fresh? && passes[j].Fresh? ==> passes[i].ts <= passes[j].ts)
  }

  /** The candidate and time of the last classified pass. */
  function LastFresh(passes: seq<Pass>): Option<(Quality, nat)>
    decreases |passes|
  {
    if passes == [] then None
    else if passes[|passes| - 1].Fresh? then Some((passes[|passes| - 1].candidate, passes[|passes| - 1].ts))
    else LastFresh(passes[..|passes| - 1])
  }

  /** The confirmation counts the distinct times of the current streak. */
  ghost predicate TrackInv(cfg: Settings, t: Track, passes: seq<Pass>) {
    var latest := LastFresh(passes);
    && (t.last.None? <==> latest.None?)
    && (t.last.None? ==> t.pending.None?)
    && (t.last.Some? && t.pending.None? ==> latest.value.0 == t.last.value.quality)
    && (t.pending.Some? ==>
          var p := t.pending.value;
          && p.quality != t.last.value.quality
          && latest.value.0 == p.quality && p.lastTs == latest.value.1
          && 0 < p.passes == |Streak(passes, p.quality)| < Max(cfg.hysteresisPasses, 1))
  }

  lemma {:induction false} StreakOfOther(passes: seq<Pass>, c: Quality)
    requires LastFresh(passes).None? || LastFresh(passes).value.0 != c
    ensures Streak(passes, c) == {}
    decreases |passes|
  {
    if passes != [] && !passes[|passes| - 1].Fresh? {
      StreakOfOther(passes[..|passes| - 1], c);
    }
  }

  /** The streak's times are at most the last one, which is in it. */
  lemma {:induction false} StreakTimes(passes: seq<Pass>, c: Quality)
    requires TimesAdvance(passes)
    ensures forall x :: x in Streak(passes, c) ==> LastFresh(passes).Some? && x <= LastFresh(passes).value.1
    ensures var l := LastFresh(passes);
            l.Some? && l.value.0 == c ==> l.value.1 in Streak(passes, c) && 1 <= l.value.1
    decreases |passes|
  {
    if passes != [] {
      var front := passes[..|passes| - 1];
      assert forall i :: 0 <= i < |front| ==> front[i] == passes[i];
      StreakTimes(front, c);
      LastFreshIsPass(front);
    }
  }

  lemma {:induction false} LastFreshIsPass(passes: seq<Pass>)
    ensures var l := LastFresh(passes);
            l.Some? ==> Fresh(l.value.0, l.value.1) in passes
    decreases |passes|
  {
    if passes != [] && !passes[|passes| - 1].Fresh? {
      LastFreshIsPass(passes[..|passes| - 1]);
    }
  }

  lemma {:induction false} RunKeepsTrackInv(cfg: Settings, link: LinkKey, passes: seq<Pass>)
    requires TimesAdvance(passes)
    ensures TrackInv(cfg, RunTrack(cfg, link, passes), passes)
    decreases |passes|
  {
    if passes != [] {
      var front, p := passes[..|passes| - 1], passes[|passes| - 1];
      assert forall i :: 0 <= i < |front| ==> front[i] == passes[i];
      RunKeepsTrackInv(cfg, link, front);
      CountedIsStreak(cfg, RunTrack(cfg, link, front), passes);
    }
  }

  /** The entry a fresh pass leaves counts its streak, this pass included. */
  lemma CountedIsStreak(cfg: Settings, t: Track, passes: seq<Pass>)
    requires TimesAdvance(passes) && passes != []
    requires TrackInv(cfg, t, passes[..|passes| - 1])
    ensures var p := passes[|passes| - 1];
            p.Fresh? && t.last.Some? && p.candidate != t.last.value.quality ==>
              && Counted(t.pending, p).passes == |Streak(passes, p.candidate)| > 0
              && Counted(t.pending, p).lastTs == p.ts
              && Counted(t.pending, p).quality == p.candidate
  {
    var front, p := passes[..|passes| - 1], passes[|passes| - 1];
    assert forall i :: 0 <= i < |front| ==> front[i] == passes[i];
    if p.Fresh? && t.last.Some? && p.candidate != t.last.value.quality {
      var c := p.candidate;
      StreakTimes(front, c);
      LastFreshIsPass(front);
      var last := LastFresh(front).value;
      if last.0 == c {
        assert last.1 <= p.ts;
        assert Streak(passes, c) == Streak(front, c) + {p.ts};
        if last.1 == p.ts {
          assert Streak(front, c) + {p.ts} == Streak(front, c);
        } else {
          assert p.ts !in Streak(front, c);
        }
      } else {
        StreakOfOther(front, c);
        assert Streak(passes, c) == {p.ts};
      }
    }
  }

  /** A link changes class exactly when a differing candidate has held for every
      classified pass of a streak that saw `hysteresis_passes` (at least one)
      distinct newest-sample times; the first classification applies at once, and a
      held pass changes neither class, cost nor confirmation. */
  lemma ClassChangesAfterItsStreak(cfg: Settings, link: LinkKey, passes: seq<Pass>)
    requires TimesAdvance(passes) && passes != []
    ensures var before := RunTrack(cfg, link, passes[..|passes| - 1]);
            var after := RunTrack(cfg, link, passes);
            match passes[|passes| - 1]
            case Fresh(c, _) =>
              && after.last.Some?
              && after.last.value.cost == PolicyCost(cfg, link, after.last.value.quality)
              && (before.last.None? ==> after.last.value.quality == c)
              && (before.last.Some? ==>
                    && (after.last.value.quality != before.last.value.quality
                        <==> c != before.last.value.quality
                             && |Streak(passes, c)| >= Max(cfg.hysteresisPasses, 1))
                    && (after.last.value.quality != before.last.value.quality ==> after.last.value.quality == c))
            case _ => after == before
  {
    var front := passes[..|passes| - 1];
    assert forall i :: 0 <= i < |front| ==> front[i] == passes[i];
    RunKeepsTrackInv(cfg, link, front);
    CountedIsStreak(cfg, RunTrack(cfg, link, front), passes);
  }

  // ── Why the times advance ────────────────────────────────────────────────

  /** A window's time is its ring's newest, so over any run of ingests and prunes a
      later window's time is no earlier, and all are positive. */
  lemma WindowTimesAdvance(events: seq<LinkHistory.Event>, i: nat, j: nat, spec: Window.Spec,
                           earlier: nat, now: nat, a: Window.View, b: Window.View)
    requires i <= j <= |events|
    requires Window.IsWindow(LinkHistory.Run(events[..i]).ring.samples, spec, earlier, Some(a))
    requires Window.IsWindow(LinkHistory.Run(events[..j]).ring.samples, spec, now, Some(b))
    ensures 1 <= a.ts <= b.ts
  {
    hide LinkHistory.Run;
    var early, late := events[..i], events[..j];
    assert late[..i] == early;
    LinkHistory.RunOk(early);
    LinkHistory.RunOk(late);
    Window.WindowTimeIsNewest(LinkHistory.Run(early).ring.samples, spec, earlier, a);
    Window.WindowTimeIsNewest(LinkHistory.Run(late).ring.samples, spec, now, b);
    LinkHistory.NewestNeverRecedes(late, i);
  }
}
