/** Registrations with commands outstanding (crates/controller/src/session.rs,
    crates/controller/src/worker.rs): exactly which of them the slots and the cost
    bookkeeping survive. */
module Reconnect {
  import opened Core
  import opened Fence
  import opened Worker
  import opened Dispatch

  // ── What may follow ──────────────────────────────────────────────────────

  /** From here on all registrations are in order. */
  ghost predicate OrderlyAfter(base: seq<Action>, more: seq<Action>, kind: Kind)
    decreases |more|
  {
    more != [] ==>
      var front := more[..|more| - 1];
      OrderlyAfter(base, front, kind) && OrderlyStep(Run(base + front), more[|more| - 1], kind)
  }

  function Then(actions: seq<Action>, agent: string, anew: bool, reported: seq<LinkKey>, costs: map<LinkKey, nat>)
    : seq<Action>
  {
    actions + [Register(agent, anew, reported, costs)]
  }

  ghost predicate OrderlyApplies(base: seq<Action>, more: seq<Action>) {
    OrderlyAfter(base, more, Apply) && DistinctReports(more)
  }

  /** Whatever costs the registration seeds and whatever follows in order, no link has
      two commands of the kind outstanding. */
  ghost predicate KeepsOneEach(actions: seq<Action>, agent: string, anew: bool, reported: seq<LinkKey>, kind: Kind) {
    forall costs, more :: OrderlyAfter(Then(actions, agent, anew, reported, costs), more, kind)
      ==> OneEach(Run(Then(actions, agent, anew, reported, costs) + more), kind)
  }

  ghost predicate KeepsSettled(actions: seq<Action>, agent: string, anew: bool, reported: seq<LinkKey>) {
    forall costs, more :: OrderlyApplies(Then(actions, agent, anew, reported, costs), more)
      ==> Settled(Run(Then(actions, agent, anew, reported, costs) + more))
  }

  ghost predicate KeepsPatient(actions: seq<Action>, agent: string, anew: bool, reported: seq<LinkKey>) {
    forall costs, more :: OrderlyApplies(Then(actions, agent, anew, reported, costs), more)
      ==> Patient(Run(Then(actions, agent, anew, reported, costs) + more))
  }

  lemma RunOneMore(actions: seq<Action>, a: Action)
    ensures Run(actions + [a]) == After(Run(actions), a)
  {
  }

  lemma {:induction false} OrderlyAppends(base: seq<Action>, more: seq<Action>, kind: Kind)
    requires Orderly(base, kind) && OrderlyAfter(base, more, kind)
    ensures Orderly(base + more, kind)
    decreases |more|
  {
    hide Run, OrderlyStep;
    if more == [] {
      assert base + more == base;
    } else {
      var front := more[..|more| - 1];
      OrderlyAppends(base, front, kind);
      assert (base + more)[..|base + more| - 1] == base + front;
    }
  }

  lemma OrderlyThen(actions: seq<Action>, agent: string, anew: bool, reported: seq<LinkKey>, costs: map<LinkKey, nat>,
                    kind: Kind)
    requires Orderly(actions, kind) && InOrder(Run(actions), agent, anew, reported, kind)
    ensures Orderly(Then(actions, agent, anew, reported, costs), kind)
  {
    hide InOrder, Run;
    assert Then(actions, agent, anew, reported, costs)[..|actions|] == actions;
  }

  /** A continuation in order that ends in mesh m. */
  ghost predicate Reaches(base: seq<Action>, more: seq<Action>, m: Mesh, kind: Kind) {
    OrderlyAfter(base, more, kind) && DistinctReports(more) && Run(base + more) == m
  }

  lemma ReachStep(base: seq<Action>, more: seq<Action>, m: Mesh, a: Action, kind: Kind)
    requires Reaches(base, more, m, kind) && OrderlyStep(m, a, kind) && DistinctReport(a)
    ensures Reaches(base, more + [a], After(m, a), kind)
  {
    hide OrderlyStep, Run, After;
    RunOneMore(base + more, a);
    assert base + (more + [a]) == base + more + [a];
    assert (more + [a])[..|more|] == more;
  }

  // ── A registration out of order frees a slot ─────────────────────────────

  /** The slot of an outstanding command is free, nothing is remembered of its link's
      cost, and the command is still out. */
  ghost predicate Freed(before: Mesh, m: Mesh, id: nat) {
    && id in before.streams && m.streams == before.streams && m.leases == before.leases && m.now == before.now
    && StreamsNumbered(m)
    && var s := m.streams[id];
       && s.agent in m.workers
       && var w := m.workers[s.agent];
          && w.session.Some? && s.link in w.links && (s.link, s.kind) !in w.inFlight
          && s.link !in w.appliedSent && s.link !in w.retryAt
  }

  lemma {:induction false} SeedNothing(m: Mesh, agent: string, links: seq<LinkKey>)
    ensures Seeded(m, agent, links, map[]) == m
    decreases |links|
  {
    if links != [] {
      SeedNothing(m, agent, links[..|links| - 1]);
    }
  }

  /** Out of order, and then reporting the links of all outstanding commands again. */
  lemma SlotIsFreed(m: Mesh, agent: string, anew: bool, reported: seq<LinkKey>, links: seq<LinkKey>, kind: Kind,
                    id: nat)
    requires SlotInv(m, kind) && Outstanding(m, agent, kind, id)
    requires !(!anew && agent in m.workers && m.streams[id].link in reported)
    requires m.streams[id].link in links
    ensures var m1 := After(m, Register(agent, anew, reported, map[]));
            && m1.streams == m.streams && agent in m1.workers
            && Freed(m, After(m1, Register(agent, false, links, map[])), id)
  {
    SeedNothing(Cleared(m, agent, anew, reported), agent, reported);
    var m1 := Cleared(m, agent, anew, reported);
    SeedNothing(Cleared(m1, agent, false, links), agent, links);
    hide Seeded;
    ClearedFrees(m, agent, anew, reported, kind, id);
  }

  lemma ClearedFrees(m: Mesh, agent: string, anew: bool, reported: seq<LinkKey>, kind: Kind, id: nat)
    requires SlotInv(m, kind) && Outstanding(m, agent, kind, id)
    requires !(!anew && agent in m.workers && m.streams[id].link in reported)
    ensures var m1 := Cleared(m, agent, anew, reported);
            agent in m1.workers && m1.workers[agent].session.Some?
            && (m.streams[id].link, kind) !in m1.workers[agent].inFlight
  {
  }

  lemma {:induction false} SequenceOf(links: set<LinkKey>) returns (s: seq<LinkKey>)
    ensures forall l :: l in s <==> l in links
    decreases |links|
  {
    s := [];
    if l :| l in links {
      var rest := SequenceOf(links - {l});
      s := rest + [l];
    }
  }

  /** The links of the agent's outstanding commands of a kind. */
  lemma OutstandingLinks(m: Mesh, agent: string, kind: Kind) returns (links: seq<LinkKey>)
    ensures forall id :: Outstanding(m, agent, kind, id) ==> m.streams[id].link in links
    ensures forall l :: l in links ==> exists id :: Outstanding(m, agent, kind, id) && m.streams[id].link == l
  {
    links := SequenceOf(set id | id in m.streams && m.streams[id].agent == agent && m.streams[id].kind == kind
                               :: m.streams[id].link);
    forall id | Outstanding(m, agent, kind, id) ensures m.streams[id].link in links {
    }
    forall l | l in links ensures exists id :: Outstanding(m, agent, kind, id) && m.streams[id].link == l {
      var id :| id in m.streams && m.streams[id].agent == agent && m.streams[id].kind == kind
        && m.streams[id].link == l;
      assert Outstanding(m, agent, kind, id);
    }
  }

  /** A run that leads from the registration to the freed slot. */
  lemma FreeingRun(actions: seq<Action>, agent: string, anew: bool, reported: seq<LinkKey>, kind: Kind, id: nat)
    returns (more: seq<Action>, m: Mesh)
    requires SlotInv(Run(actions), kind) && Outstanding(Run(actions), agent, kind, id)
    requires !(!anew && agent in Run(actions).workers && Run(actions).streams[id].link in reported)
    ensures kind == Apply && IfacesOk(Run(actions)) ==>
              Reaches(Then(actions, agent, anew, reported, map[]), more, m, kind)
    ensures OrderlyAfter(Then(actions, agent, anew, reported, map[]), more, kind)
    ensures Run(Then(actions, agent, anew, reported, map[]) + more) == m && Freed(Run(actions), m, id)
  {
    hide Run, After, Freed, SlotInv, IfacesOk;
    var base, before := Then(actions, agent, anew, reported, map[]), Run(actions);
    var links := OutstandingLinks(before, agent, kind);
    var a := Register(agent, false, links, map[]);
    RunOneMore(actions, Register(agent, anew, reported, map[]));
    SlotIsFreed(before, agent, anew, reported, links, kind, id);
    more := [a];
    m := After(Run(base), a);
    RunOneMore(base, a);
    assert base + [] == base;
    assert InOrder(Run(base), agent, false, links, kind) by {
      forall i | Outstanding(Run(base), agent, kind, i)
        ensures agent in Run(base).workers && Run(base).streams[i].link in links
      {
        assert Outstanding(before, agent, kind, i);
      }
    }
    assert OrderlyAfter(base, [], kind) && more[..0] == [];
    if kind == Apply && IfacesOk(before) {
      LinksApart(before, agent, links);
    }
  }

  lemma LinksApart(m: Mesh, agent: string, links: seq<LinkKey>)
    requires IfacesOk(m)
    requires forall l :: l in links ==> exists id :: Outstanding(m, agent, Apply, id) && m.streams[id].link == l
    ensures DistinctIfaces(links)
  {
    forall l, k | l in links && k in links && l.iface == k.iface ensures l == k {
      var i :| Outstanding(m, agent, Apply, i) && m.streams[i].link == l;
      var j :| Outstanding(m, agent, Apply, j) && m.streams[j].link == k;
      assert !SharedIface(m.streams[i], m.streams[j]);
    }
  }

  // ── Two commands in one slot ─────────────────────────────────────────────

  function Plan(s: Stream): Action {
    match s.kind
    case Always => PlanPing(s.agent, s.link)
    case Throughput => PlanTest(s.agent, s.link)
    case Apply => PlanCost(s.agent, s.link, 0)
  }

  /** Once its lease has run out, the command's like goes out beside it. */
  lemma SecondGoesOut(before: Mesh, m: Mesh, id: nat)
    requires Freed(before, m, id) && LeasesOk(before)
    ensures var late := After(m, Tick(m.now + FENCE_TTL_SECS));
            !OneEach(After(late, Plan(m.streams[id])), m.streams[id].kind)
  {
    hide After, OneEach;
    TimePasses(m, m.now + FENCE_TTL_SECS);
    var late := After(m, Tick(m.now + FENCE_TTL_SECS));
    var s := m.streams[id];
    LeasesRunOut(before, late.now);
    match s.kind
    case Always =>
      PingGoesOut(late, s.agent, s.link);
      TwoInOneSlot(After(late, Plan(s)), id, m.next);
    case Throughput =>
      TestGoesOut(late, s.agent, s.link);
      TwoInOneSlot(After(late, Plan(s)), id, m.next + 1);
    case Apply =>
      CostGoesOut(late, s.agent, s.link, 0);
      TwoInOneSlot(After(late, Plan(s)), id, m.next);
  }

  lemma TwoInOneSlot(m: Mesh, i: nat, j: nat)
    requires i in m.streams && j in m.streams && i != j && SameSlot(m.streams[i], m.streams[j])
    ensures !OneEach(m, m.streams[i].kind)
  {
  }

  lemma PingGoesOut(m: Mesh, agent: string, link: LinkKey)
    requires agent in m.workers
    requires var w := m.workers[agent]; w.session.Some? && link in w.links && (link, Always) !in w.inFlight
    ensures After(m, PlanPing(agent, link)).streams == m.streams[m.next := Stream(agent, link, Always, 0, 0, None)]
  {
  }

  lemma TestGoesOut(m: Mesh, agent: string, link: LinkKey)
    requires agent in m.workers && Live(m.leases, m.now) == map[]
    requires var w := m.workers[agent]; w.session.Some? && link in w.links && (link, Throughput) !in w.inFlight
    ensures After(m, PlanTest(agent, link)).streams
         == m.streams[m.next + 1 := Stream(agent, link, Throughput, m.next, 0, None)]
  {
    hide Live;
  }

  lemma LeasesRunOut(m: Mesh, now: nat)
    requires LeasesOk(m) && m.now + FENCE_TTL_SECS <= now
    ensures Live(m.leases, now) == map[]
  {
    forall k | k in m.leases ensures m.leases[k].Expired(now) {
      assert LeaseOk(m, m.leases[k]);
    }
  }

  /** What planning a due cost does. */
  lemma CostGoesOut(m: Mesh, agent: string, link: LinkKey, cost: nat)
    requires agent in m.workers
    requires var w := m.workers[agent];
             && w.session.Some? && link in w.links && (link, Apply) !in w.inFlight
             && (link in w.appliedSent ==> w.appliedSent[link] != cost)
             && (link in w.retryAt ==> w.retryAt[link] <= m.now)
    ensures var m' := After(m, PlanCost(agent, link, cost));
            var w, w' := m.workers[agent], m'.workers[agent];
            && m'.next == m.next + 1 && m'.now == m.now && m'.desired == m.desired && m'.failed == m.failed
            && m'.streams == m.streams[m.next := Stream(agent, link, Apply, 0, cost, None)]
            && m'.workers == m.workers[agent := w']
            && w' == w.(inFlight := w.inFlight + {(link, Apply)}, retryAt := w.retryAt - {link},
                        appliedSent := w.appliedSent[link := cost])
  {
  }

  lemma DoublingRun(actions: seq<Action>, agent: string, anew: bool, reported: seq<LinkKey>, kind: Kind, id: nat)
    returns (more: seq<Action>)
    requires Orderly(actions, kind) && Outstanding(Run(actions), agent, kind, id)
    requires !(!anew && agent in Run(actions).workers && Run(actions).streams[id].link in reported)
    ensures OrderlyAfter(Then(actions, agent, anew, reported, map[]), more, kind)
    ensures !OneEach(Run(Then(actions, agent, anew, reported, map[]) + more), kind)
  {
    hide Run, After, Freed, LeaseInv, SlotInv, Orderly;
    var base, before := Then(actions, agent, anew, reported, map[]), Run(actions);
    RunKeepsSlots(actions, kind);
    RunKeepsLeases(actions);
    assert LeasesOk(before) by { LeasesAreOk(before); }
    var m;
    more, m := FreeingRun(actions, agent, anew, reported, kind, id);
    assert m.streams[id] == before.streams[id] by { FreedSame(before, m, id); }
    SecondGoesOut(before, m, id);
    var wait, plan := Tick(m.now + FENCE_TTL_SECS), Plan(m.streams[id]);
    OneMoreOrderly(base, more, wait, kind);
    OneMoreOrderly(base, more + [wait], plan, kind);
    more := more + [wait] + [plan];
  }

  lemma LeasesAreOk(m: Mesh)
    requires LeaseInv(m)
    ensures LeasesOk(m)
  {
  }

  lemma FreedSame(before: Mesh, m: Mesh, id: nat)
    requires Freed(before, m, id)
    ensures id in before.streams && m.streams == before.streams
  {
  }

  /** Anything but a registration is in order. */
  lemma OneMoreOrderly(base: seq<Action>, more: seq<Action>, a: Action, kind: Kind)
    requires OrderlyAfter(base, more, kind) && !a.Register?
    ensures OrderlyAfter(base, more + [a], kind)
    ensures Run(base + (more + [a])) == After(Run(base + more), a)
  {
    hide Run, After;
    assert (more + [a])[..|more|] == more;
    assert base + (more + [a]) == base + more + [a];
    RunOneMore(base + more, a);
  }

  /** Exactly the registrations in order for a kind of command keep, whatever follows
      in order, at most one of them outstanding on a link. */
  lemma OneEachIffInOrder(actions: seq<Action>, agent: string, anew: bool, reported: seq<LinkKey>, kind: Kind)
    requires Orderly(actions, kind)
    ensures InOrder(Run(actions), agent, anew, reported, kind) <==> KeepsOneEach(actions, agent, anew, reported, kind)
  {
    hide Run, Orderly, OneEach, OrderlyAfter, DistinctReports, Then;
    if InOrder(Run(actions), agent, anew, reported, kind) {
      forall costs, more | OrderlyAfter(Then(actions, agent, anew, reported, costs), more, kind)
        ensures OneEach(Run(Then(actions, agent, anew, reported, costs) + more), kind)
      {
        OrderlyThen(actions, agent, anew, reported, costs, kind);
        OrderlyAppends(Then(actions, agent, anew, reported, costs), more, kind);
        OneCommandPerSlot(Then(actions, agent, anew, reported, costs) + more, kind);
      }
    } else {
      var id :| Outstanding(Run(actions), agent, kind, id)
        && !(!anew && agent in Run(actions).workers && Run(actions).streams[id].link in reported);
      var more := DoublingRun(actions, agent, anew, reported, kind, id);
    }
  }

  lemma RunKeepsIfaces(actions: seq<Action>)
    requires Orderly(actions, Apply) && DistinctReports(actions)
    ensures IfacesOk(Run(actions)) && SlotInv(Run(actions), Apply)
  {
    RunKeepsCosts(actions);
  }

  // ── A cost believed wrongly ──────────────────────────────────────────────

  /** The superseded apply fails, which frees the slot its successor holds and forgets
      that cost; the next cost goes out beside it, and the answers come back in the
      other order. */
  lemma UnsettlingRun(actions: seq<Action>, agent: string, anew: bool, reported: seq<LinkKey>, id: nat)
    returns (more: seq<Action>)
    requires Orderly(actions, Apply) && DistinctReports(actions) && Outstanding(Run(actions), agent, Apply, id)
    requires !(!anew && agent in Run(actions).workers && Run(actions).streams[id].link in reported)
    ensures OrderlyAfter(Then(actions, agent, anew, reported, map[]), more, Apply) && DistinctReports(more)
    ensures !Settled(Run(Then(actions, agent, anew, reported, map[]) + more))
  {
    hide Run, After, AfterAll, Freed, SlotInv, IfacesOk, Orderly, DistinctReports, OrderlyAfter, Settled;
    var base, before := Then(actions, agent, anew, reported, map[]), Run(actions);
    RunKeepsIfaces(actions);
    var m;
    more, m := FreeingRun(actions, agent, anew, reported, Apply, id);
    FreedSame(before, m, id);
    var first := SecondCostGoesOut(before, m, id);
    var last := AnswersCross(AfterAll(m, first), m.streams[id], m.next);
    more := Follow(base, more, m, first);
    more := Follow(base, more, AfterAll(m, first), last);
  }

  /** Actions one after another. */
  function AfterAll(m: Mesh, actions: seq<Action>): Mesh
    decreases |actions|
  {
    if actions == [] then m else After(AfterAll(m, actions[..|actions| - 1]), actions[|actions| - 1])
  }

  lemma {:induction false} Follow(base: seq<Action>, more: seq<Action>, m: Mesh, last: seq<Action>)
    returns (all: seq<Action>)
    requires Reaches(base, more, m, Apply) && forall i :: 0 <= i < |last| ==> !last[i].Register?
    ensures Reaches(base, all, AfterAll(m, last), Apply)
    decreases |last|
  {
    hide Reaches, After;
    if last == [] {
      all := more;
    } else {
      var a := last[|last| - 1];
      var front := Follow(base, more, m, last[..|last| - 1]);
      ReachStep(base, front, AfterAll(m, last[..|last| - 1]), a, Apply);
      all := front + [a];
    }
  }

  lemma AfterAllStep(m: Mesh, actions: seq<Action>, a: Action)
    ensures AfterAll(m, actions + [a]) == After(AfterAll(m, actions), a)
  {
    assert (actions + [a])[..|actions|] == actions;
  }

  /** What the failure of an apply does. */
  lemma ApplyFails(m: Mesh, id: nat)
    requires id in m.streams && m.streams[id].kind == Apply && m.streams[id].agent in m.workers
    ensures var m', s := After(m, Fail(id)), m.streams[id];
            var w, w' := m.workers[s.agent], m'.workers[s.agent];
            && m'.next == m.next && m'.now == m.now && m'.desired == m.desired
            && m'.failed == m.failed[(s.agent, s.link) := m.now]
            && m'.streams == m.streams - {id} && m'.workers == m.workers[s.agent := w']
            && w' == w.(inFlight := w.inFlight - {(s.link, Apply)}, appliedSent := w.appliedSent - {s.link},
                        retryAt := w.retryAt[s.link := m.now + APPLY_RETRY_SECS])
  {
  }

  lemma ApplySucceeds(m: Mesh, id: nat)
    requires id in m.streams && m.streams[id].kind == Apply && m.streams[id].answer == Some(true)
    requires m.streams[id].agent in m.workers
    ensures var m', s := After(m, Reply(id)), m.streams[id];
            var w, w' := m.workers[s.agent], m'.workers[s.agent];
            && m'.next == m.next && m'.now == m.now && m'.desired == m.desired && m'.failed == m.failed
            && m'.streams == m.streams - {id} && m'.workers == m.workers[s.agent := w']
            && w' == w.(inFlight := w.inFlight - {(s.link, Apply)}, retryAt := w.retryAt - {s.link},
                        appliedSent := w.appliedSent[s.link := s.cost])
  {
  }

  lemma ApplyExecutes(m: Mesh, id: nat)
    requires id in m.streams && m.streams[id].kind == Apply && m.streams[id].answer == None
    ensures var m', s := After(m, Execute(id, true)), m.streams[id];
            m' == m.(streams := m.streams[id := s.(answer := Some(true))],
                     desired := m.desired[(s.agent, s.link.iface) := s.cost])
  {
  }

  /** Two applies of one link are out, in the agent's hands. */
  ghost predicate TwoOut(m: Mesh, s: Stream, n: nat) {
    && n in m.streams && n + 1 in m.streams && s.kind == Apply && s.agent in m.workers
    && m.streams[n] == Stream(s.agent, s.link, Apply, 0, 0, None)
    && m.streams[n + 1] == Stream(s.agent, s.link, Apply, 0, 1, None)
    && forall i :: i in m.streams && i != n && i != n + 1 ==> !IsApply(m.streams[i], s.agent, s.link)
  }

  /** The failure frees the successor's slot, and a second cost follows the first. */
  lemma SecondCostGoesOut(before: Mesh, m: Mesh, id: nat) returns (last: seq<Action>)
    requires Freed(before, m, id) && SlotInv(before, Apply) && m.streams[id].kind == Apply
    ensures forall i :: 0 <= i < |last| ==> !last[i].Register?
    ensures |last| == 4 && TwoOut(AfterAll(m, last), m.streams[id], m.next)
  {
    hide After, SlotInv;
    var s := m.streams[id];
    CostGoesOut(m, s.agent, s.link, 0);
    var m1 := After(m, PlanCost(s.agent, s.link, 0));
    ApplyFails(m1, id);
    var m2 := After(m1, Fail(id));
    TimePasses(m2, m2.now + APPLY_RETRY_SECS);
    var m3 := After(m2, Tick(m2.now + APPLY_RETRY_SECS));
    CostGoesOut(m3, s.agent, s.link, 1);
    var m4 := After(m3, PlanCost(s.agent, s.link, 1));
    forall i | i in m4.streams && i != m.next && i != m.next + 1 ensures !IsApply(m4.streams[i], s.agent, s.link) {
      assert !SameSlot(s, m.streams[i]) by { OnlyOne(before, id, i); }
    }
    last := [PlanCost(s.agent, s.link, 0), Fail(id), Tick(m2.now + APPLY_RETRY_SECS), PlanCost(s.agent, s.link, 1)];
    FourSteps(m, last);
  }

  /** Executed in one order and answered in the other. */
  lemma AnswersCross(m: Mesh, s: Stream, n: nat) returns (last: seq<Action>)
    requires TwoOut(m, s, n)
    ensures forall i :: 0 <= i < |last| ==> !last[i].Register?
    ensures |last| == 4 && !Settled(AfterAll(m, last))
  {
    hide After;
    ApplyExecutes(m, n);
    var m1 := After(m, Execute(n, true));
    ApplyExecutes(m1, n + 1);
    var m2 := After(m1, Execute(n + 1, true));
    ApplySucceeds(m2, n + 1);
    var m3 := After(m2, Reply(n + 1));
    ApplySucceeds(m3, n);
    var m4 := After(m3, Reply(n));
    assert m4.workers[s.agent].appliedSent[s.link] == 0 && m4.desired[(s.agent, s.link.iface)] == 1;
    last := [Execute(n, true), Execute(n + 1, true), Reply(n + 1), Reply(n)];
    FourSteps(m, last);
  }

  lemma OnlyOne(m: Mesh, id: nat, i: nat)
    requires SlotInv(m, Apply) && id in m.streams && m.streams[id].kind == Apply && i in m.streams && i != id
    ensures !SameSlot(m.streams[id], m.streams[i])
  {
  }

  lemma TimePasses(m: Mesh, now: nat)
    requires m.now <= now
    ensures After(m, Tick(now)) == m.(now := now)
  {
  }

  /** Exactly the registrations in order for applies keep, whatever follows in order,
      every settled cost the one the agent wants. */
  lemma SettledIffInOrder(actions: seq<Action>, agent: string, anew: bool, reported: seq<LinkKey>)
    requires Orderly(actions, Apply) && DistinctReports(actions) && DistinctIfaces(reported)
    ensures InOrder(Run(actions), agent, anew, reported, Apply) <==> KeepsSettled(actions, agent, anew, reported)
  {
    hide Run, Orderly, Settled, OrderlyAfter, DistinctReports, DistinctIfaces, Then;
    if InOrder(Run(actions), agent, anew, reported, Apply) {
      forall costs, more | OrderlyApplies(Then(actions, agent, anew, reported, costs), more)
        ensures Settled(Run(Then(actions, agent, anew, reported, costs) + more))
      {
        AllOrderly(actions, agent, anew, reported, costs, more);
        AppliedMeansDesired(Then(actions, agent, anew, reported, costs) + more);
      }
    } else {
      var id :| Outstanding(Run(actions), agent, Apply, id)
        && !(!anew && agent in Run(actions).workers && Run(actions).streams[id].link in reported);
      var more := UnsettlingRun(actions, agent, anew, reported, id);
    }
  }

  lemma AllOrderly(actions: seq<Action>, agent: string, anew: bool, reported: seq<LinkKey>, costs: map<LinkKey, nat>,
                   more: seq<Action>)
    requires Orderly(actions, Apply) && DistinctReports(actions) && DistinctIfaces(reported)
    requires InOrder(Run(actions), agent, anew, reported, Apply)
    requires OrderlyAfter(Then(actions, agent, anew, reported, costs), more, Apply) && DistinctReports(more)
    ensures Orderly(Then(actions, agent, anew, reported, costs) + more, Apply)
    ensures DistinctReports(Then(actions, agent, anew, reported, costs) + more)
  {
    hide Run, Orderly, OrderlyAfter, InOrder, DistinctIfaces;
    OrderlyThen(actions, agent, anew, reported, costs, Apply);
    OrderlyAppends(Then(actions, agent, anew, reported, costs), more, Apply);
  }

  // ── A retry too early ────────────────────────────────────────────────────

  lemma HurryingSteps(before: Mesh, m: Mesh, id: nat) returns (last: seq<Action>)
    requires Freed(before, m, id) && m.streams[id].kind == Apply
    ensures forall i :: 0 <= i < |last| ==> !last[i].Register?
    ensures !Patient(AfterAll(m, last))
  {
    hide After;
    var s, n := m.streams[id], m.next;
    CostGoesOut(m, s.agent, s.link, 0);
    var m1 := After(m, PlanCost(s.agent, s.link, 0));
    ApplyFails(m1, id);
    var m2 := After(m1, Fail(id));
    ApplyExecutes(m2, n);
    var m3 := After(m2, Execute(n, true));
    ApplySucceeds(m3, n);
    var m4 := After(m3, Reply(n));
    CostGoesOut(m4, s.agent, s.link, 1);
    assert PlannedCost(m4, s.agent, s.link, 1) != m4 by { PlanIsPlanned(m4, s.agent, s.link, 1); }
    last := [PlanCost(s.agent, s.link, 0), Fail(id), Execute(n, true), Reply(n)];
    FourSteps(m, last);
  }

  lemma PlanIsPlanned(m: Mesh, agent: string, link: LinkKey, cost: nat)
    requires agent in m.workers && link in m.workers[agent].links
    ensures After(m, PlanCost(agent, link, cost)) == PlannedCost(m, agent, link, cost)
  {
  }

  lemma FourSteps(m: Mesh, a: seq<Action>)
    requires |a| == 4
    ensures AfterAll(m, a) == After(After(After(After(m, a[0]), a[1]), a[2]), a[3])
  {
    hide After;
    assert AfterAll(m, []) == m;
    forall i | 0 <= i < 4 ensures AfterAll(m, a[..i + 1]) == After(AfterAll(m, a[..i]), a[i]) {
      AfterAllStep(m, a[..i], a[i]);
      assert a[..i + 1] == a[..i] + [a[i]];
    }
    assert a[..0] == [] && a[..4] == a;
  }

  lemma HurryingRun(actions: seq<Action>, agent: string, anew: bool, reported: seq<LinkKey>, id: nat)
    returns (more: seq<Action>)
    requires Orderly(actions, Apply) && DistinctReports(actions) && Outstanding(Run(actions), agent, Apply, id)
    requires !(!anew && agent in Run(actions).workers && Run(actions).streams[id].link in reported)
    ensures OrderlyAfter(Then(actions, agent, anew, reported, map[]), more, Apply) && DistinctReports(more)
    ensures !Patient(Run(Then(actions, agent, anew, reported, map[]) + more))
  {
    hide Run, After, Freed, SlotInv, IfacesOk, Orderly, DistinctReports, OrderlyAfter, Patient;
    var base, before := Then(actions, agent, anew, reported, map[]), Run(actions);
    RunKeepsIfaces(actions);
    var m;
    more, m := FreeingRun(actions, agent, anew, reported, Apply, id);
    FreedSame(before, m, id);
    var last := HurryingSteps(before, m, id);
    more := Follow(base, more, m, last);
  }

  /** And exactly those keep every back-off. */
  lemma PatientIffInOrder(actions: seq<Action>, agent: string, anew: bool, reported: seq<LinkKey>)
    requires Orderly(actions, Apply) && DistinctReports(actions) && DistinctIfaces(reported)
    ensures InOrder(Run(actions), agent, anew, reported, Apply) <==> KeepsPatient(actions, agent, anew, reported)
  {
    hide Run, Orderly, Patient, OrderlyAfter, DistinctReports, DistinctIfaces, Then;
    if InOrder(Run(actions), agent, anew, reported, Apply) {
      forall costs, more | OrderlyApplies(Then(actions, agent, anew, reported, costs), more)
        ensures Patient(Run(Then(actions, agent, anew, reported, costs) + more))
      {
        AllOrderly(actions, agent, anew, reported, costs, more);
        NoRetryBeforeBackoff(Then(actions, agent, anew, reported, costs) + more);
      }
    } else {
      var id :| Outstanding(Run(actions), agent, Apply, id)
        && !(!anew && agent in Run(actions).workers && Run(actions).streams[id].link in reported);
      var more := HurryingRun(actions, agent, anew, reported, id);
    }
  }
}
