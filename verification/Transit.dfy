/** Spokes never carry transit between hubs (docs/architecture.md): what the
    hub-to-spoke offset of `policy_cost` guarantees about whole paths. */
module Transit {
  import opened Core
  import opened Quality
  import opened Classifier

  /** One link of a path, with the class it is in. */
  datatype Hop = Hop(link: LinkKey, quality: Quality)

  /** Consecutive links from `a` to `b`. */
  predicate IsPath(path: seq<Hop>, a: string, b: string) {
    && path != [] && path[0].link.from == a && path[|path| - 1].link.to == b
    && forall i :: 0 < i < |path| ==> path[i].link.from == path[i - 1].link.to
  }

  function Cost(cfg: Settings, path: seq<Hop>): nat {
    if path == [] then 0 else PolicyCost(cfg, path[0].link, path[0].quality) + Cost(cfg, path[1..])
  }

  predicate VisitsSpoke(cfg: Settings, path: seq<Hop>) {
    exists i :: 0 <= i < |path| && !IsHub(cfg, path[i].link.to)
  }

  predicate AllHubs(cfg: Settings, path: seq<Hop>) {
    forall i :: 0 <= i < |path| ==> IsHub(cfg, path[i].link.from) && IsHub(cfg, path[i].link.to)
  }

  function MaxCost(c: Classes): nat {
    Max(Max(c.good.cost, c.acceptable.cost), Max(c.poor.cost, c.bad.cost))
  }

  function MinCost(c: Classes): nat {
    Min(Min(c.good.cost, c.acceptable.cost), Min(c.poor.cost, c.bad.cost))
  }

  /** The least a path through a spoke can cost: the offset once on the way in, a
      class cost each way. */
  function DetourFloor(cfg: Settings): nat {
    Min(MinCost(cfg.classes) + cfg.hubSpokeOffset, U32_MAX) + MinCost(cfg.classes)
  }

  lemma ClassCostBounds(c: Classes, q: Quality)
    ensures MinCost(c) <= CostForQuality(c, q) <= MaxCost(c)
  {
  }

  /** Who pays the offset: with no hubs listed, links from a member to anyone else; with
      some, links from one listed to one that is not. All others cost their class. */
  lemma HubsPayTheOffset(cfg: Settings, link: LinkKey, q: Quality)
    requires CostForQuality(cfg.classes, q) <= U32_MAX
    ensures var towardsSpoke :=
              if |cfg.hubs| == 0 then link.from in cfg.members && link.to !in cfg.members
              else (exists i :: 0 <= i < |cfg.hubs| && cfg.hubs[i] == link.from)
                   && forall i :: 0 <= i < |cfg.hubs| ==> cfg.hubs[i] != link.to;
            var tier := match q case Good => cfg.classes.good case Acceptable => cfg.classes.acceptable
                                 case Poor => cfg.classes.poor case Bad => cfg.classes.bad;
            && (!towardsSpoke ==> PolicyCost(cfg, link, q) == tier.cost)
            && (towardsSpoke && tier.cost + cfg.hubSpokeOffset <= 0xffff_ffff ==>
                  PolicyCost(cfg, link, q) == tier.cost + cfg.hubSpokeOffset)
            && (towardsSpoke && tier.cost + cfg.hubSpokeOffset > 0xffff_ffff ==>
                  PolicyCost(cfg, link, q) == 0xffff_ffff)
  {
  }

  lemma HubHopCost(cfg: Settings, hop: Hop)
    requires IsHub(cfg, hop.link.to)
    ensures PolicyCost(cfg, hop.link, hop.quality) <= MaxCost(cfg.classes)
  {
  }

  lemma OneMore(k: nat, c: nat)
    ensures (k + 1) * c == k * c + c
  {
  }

  lemma {:induction false} HubPathCost(cfg: Settings, path: seq<Hop>)
    requires AllHubs(cfg, path)
    ensures Cost(cfg, path) <= |path| * MaxCost(cfg.classes)
    decreases |path|
  {
    if path != [] {
      var rest := path[1..];
      assert forall i :: 0 <= i < |rest| ==> rest[i] == path[i + 1];
      HubHopCost(cfg, path[0]);
      HubPathCost(cfg, rest);
      hide MaxCost, IsHub, PolicyCost;
      OneMore(|rest|, MaxCost(cfg.classes));
    }
  }

  /** A path that leaves the hubs and comes back pays the offset and both class costs. */
  lemma {:induction false} DetourCost(cfg: Settings, path: seq<Hop>, a: string, b: string)
    requires IsPath(path, a, b) && IsHub(cfg, a) && IsHub(cfg, b) && VisitsSpoke(cfg, path)
    requires forall q :: CostForQuality(cfg.classes, q) <= U32_MAX
    ensures Cost(cfg, path) >= DetourFloor(cfg)
    decreases |path|
  {
    var rest, next := path[1..], path[0].link.to;
    assert rest != [];
    assert IsPath(rest, next, b) by {
      assert forall i :: 0 <= i < |rest| ==> rest[i] == path[i + 1];
    }
    ClassCostBounds(cfg.classes, path[0].quality);
    if IsHub(cfg, next) {
      var i :| 0 <= i < |path| && !IsHub(cfg, path[i].link.to);
      assert rest[i - 1] == path[i];
      DetourCost(cfg, rest, next, b);
    } else {
      ClassCostBounds(cfg.classes, rest[0].quality);
      PolicyAtLeastBase(cfg, rest[0].link, rest[0].quality);
    }
  }

  lemma PolicyAtLeastBase(cfg: Settings, link: LinkKey, q: Quality)
    requires CostForQuality(cfg.classes, q) <= U32_MAX
    ensures PolicyCost(cfg, link, q) >= CostForQuality(cfg.classes, q)
  {
  }

  /** With every class cost below the offset, any path between two directly linked
      hubs that visits a spoke costs strictly more than their direct link. */
  lemma SpokeDetourLoses(cfg: Settings, direct: Hop, detour: seq<Hop>)
    requires MaxCost(cfg.classes) < cfg.hubSpokeOffset <= U32_MAX
    requires IsHub(cfg, direct.link.from) && IsHub(cfg, direct.link.to)
    requires IsPath(detour, direct.link.from, direct.link.to) && VisitsSpoke(cfg, detour)
    ensures Cost(cfg, detour) > PolicyCost(cfg, direct.link, direct.quality)
  {
    HubPathBeatsDetour(cfg, [direct], detour, direct.link.from, direct.link.to);
    assert [direct][1..] == [];
    assert Cost(cfg, [direct]) == PolicyCost(cfg, direct.link, direct.quality) + Cost(cfg, []);
  }

  /** More generally, when k times the largest class cost is below the offset, every
      all-hub path of k links beats every path through a spoke. */
  lemma HubPathBeatsDetour(cfg: Settings, path: seq<Hop>, detour: seq<Hop>, a: string, b: string)
    requires cfg.hubSpokeOffset <= U32_MAX && |path| * MaxCost(cfg.classes) < cfg.hubSpokeOffset
    requires IsPath(path, a, b) && AllHubs(cfg, path)
    requires IsPath(detour, a, b) && VisitsSpoke(cfg, detour)
    ensures Cost(cfg, path) < Cost(cfg, detour)
  {
    AtLeastOnce(|path|, MaxCost(cfg.classes));
    forall q ensures CostForQuality(cfg.classes, q) <= U32_MAX {
      ClassCostBounds(cfg.classes, q);
    }
    HubPathCost(cfg, path);
    DetourCost(cfg, detour, a, b);
  }

  lemma AtLeastOnce(k: nat, c: nat)
    requires k >= 1
    ensures c <= k * c
  {
  }

  /** A path from `a` that comes to no node twice. */
  predicate Simple(path: seq<Hop>, a: string) {
    && (forall i :: 0 <= i < |path| ==> path[i].link.to != a)
    && (forall i, j :: 0 <= i < j < |path| ==> path[i].link.to != path[j].link.to)
  }

  predicate SimplePath(path: seq<Hop>, a: string, b: string) { IsPath(path, a, b) && Simple(path, a) }

  /** Every simple all-hub path of k links beats every simple detour between the same
      two hubs. */
  ghost predicate HubsAlwaysWin(cfg: Settings, k: nat) {
    forall path, detour, a, b :: (
      SimplePath(path, a, b) && AllHubs(cfg, path) && |path| == k
      && SimplePath(detour, a, b) && VisitsSpoke(cfg, detour)
      ==> Cost(cfg, path) < Cost(cfg, detour))
  }

  /** Exactly how far the protection reaches, in a configuration with k + 1 hubs and a
      spoke: to paths over k links, as long as k of the dearest stay below the cheapest
      detour. */
  lemma HubsWinIff(cfg: Settings, hubs: seq<string>, s: string)
    requires |hubs| >= 2 && (forall i :: 0 <= i < |hubs| ==> IsHub(cfg, hubs[i])) && !IsHub(cfg, s)
    requires forall i, j :: 0 <= i < j < |hubs| ==> hubs[i] != hubs[j]
    requires forall q :: CostForQuality(cfg.classes, q) <= U32_MAX
    ensures HubsAlwaysWin(cfg, |hubs| - 1) <==> (|hubs| - 1) * MaxCost(cfg.classes) < DetourFloor(cfg)
  {
    hide Cost, DetourFloor, MaxCost, IsHub, CostForQuality;
    var k := |hubs| - 1;
    if k * MaxCost(cfg.classes) < DetourFloor(cfg) {
      forall path, detour, a, b | SimplePath(path, a, b) && AllHubs(cfg, path) && |path| == k
          && SimplePath(detour, a, b) && VisitsSpoke(cfg, detour)
        ensures Cost(cfg, path) < Cost(cfg, detour)
      {
        HubPathCost(cfg, path);
        DetourCost(cfg, detour, a, b);
      }
    } else {
      var path, detour := Dearest(cfg, hubs), Cheapest(cfg, hubs[0], hubs[k], s);
      DearestPath(cfg, hubs);
      DearestCost(cfg, hubs);
      CheapestDetour(cfg, hubs[0], hubs[k], s);
    }
  }

  /** Along the hubs over links of the dearest class. */
  function Dearest(cfg: Settings, hubs: seq<string>): seq<Hop>
    requires hubs != []
  {
    seq(|hubs| - 1, i requires 0 <= i < |hubs| - 1 => Hop(LinkKey(hubs[i], hubs[i + 1], ""), DearestClass(cfg.classes)))
  }

  function DearestClass(c: Classes): Quality {
    if c.good.cost == MaxCost(c) then Good
    else if c.acceptable.cost == MaxCost(c) then Acceptable
    else if c.poor.cost == MaxCost(c) then Poor
    else Bad
  }

  function CheapestClass(c: Classes): Quality {
    if c.good.cost == MinCost(c) then Good
    else if c.acceptable.cost == MinCost(c) then Acceptable
    else if c.poor.cost == MinCost(c) then Poor
    else Bad
  }

  lemma DearestHopCost(cfg: Settings, hop: Hop)
    requires IsHub(cfg, hop.link.to) && hop.quality == DearestClass(cfg.classes)
    ensures PolicyCost(cfg, hop.link, hop.quality) == MaxCost(cfg.classes)
  {
  }

  lemma DearestPath(cfg: Settings, hubs: seq<string>)
    requires |hubs| >= 2 && forall i :: 0 <= i < |hubs| ==> IsHub(cfg, hubs[i])
    requires forall i, j :: 0 <= i < j < |hubs| ==> hubs[i] != hubs[j]
    ensures var path := Dearest(cfg, hubs);
            |path| == |hubs| - 1 && AllHubs(cfg, path) && SimplePath(path, hubs[0], hubs[|hubs| - 1])
  {
    hide IsHub;
  }

  lemma {:induction false} DearestCost(cfg: Settings, hubs: seq<string>)
    requires hubs != [] && forall i :: 0 <= i < |hubs| ==> IsHub(cfg, hubs[i])
    ensures Cost(cfg, Dearest(cfg, hubs)) == (|hubs| - 1) * MaxCost(cfg.classes)
    decreases |hubs|
  {
    if |hubs| > 1 {
      var path, rest := Dearest(cfg, hubs), Dearest(cfg, hubs[1..]);
      DearestCost(cfg, hubs[1..]);
      assert path[1..] == rest;
      DearestHopCost(cfg, path[0]);
      hide MaxCost, IsHub, PolicyCost, DearestClass;
      OneMore(|hubs| - 2, MaxCost(cfg.classes));
    }
  }

  function Cheapest(cfg: Settings, a: string, b: string, s: string): seq<Hop> {
    var q := CheapestClass(cfg.classes);
    [Hop(LinkKey(a, s, ""), q), Hop(LinkKey(s, b, ""), q)]
  }

  lemma CheapestDetour(cfg: Settings, a: string, b: string, s: string)
    requires IsHub(cfg, a) && IsHub(cfg, b) && a != b && !IsHub(cfg, s)
    ensures var detour := Cheapest(cfg, a, b, s);
            SimplePath(detour, a, b) && VisitsSpoke(cfg, detour) && Cost(cfg, detour) == DetourFloor(cfg)
  {
    var detour := Cheapest(cfg, a, b, s);
    assert !IsHub(cfg, detour[0].link.to);
    assert detour[1..] == [detour[1]] && detour[1..][1..] == [];
    assert Cost(cfg, detour[1..]) == PolicyCost(cfg, detour[1].link, detour[1].quality) + Cost(cfg, []);
  }
}
