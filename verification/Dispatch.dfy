/** Commands, leases and cost applies between the controller and its agents
    (crates/controller/src/scheduler.rs, crates/controller/src/session.rs,
    crates/agent/src/agent.rs). */
module Dispatch {
  import opened Core
  import opened Fence
  import opened Worker

  /** The lease of one test. */
  const FENCE_TTL_SECS: nat := 120

  /** A command outstanding on an agent's session: a stream that ends in one reply or
      in failure. `token` is set on throughput tests, `cost` on applies; `answer` is
      what the agent replied, not yet read. */
  datatype Stream = Stream(agent: string, link: LinkKey, kind: Kind, token: nat, cost: nat, answer: Option<bool>)

  /** `next` numbers streams and tokens; `desired` is each agent's own cost per
      interface; `failed` notes when a cost apply last failed, since the agent last
      registered. */
  datatype Mesh = Mesh(now: nat, next: nat, workers: Registry, leases: Leases,
                       streams: map<nat, Stream>, desired: map<(string, string), nat>,
                       failed: map<(string, LinkKey), nat>)

  const START: Mesh := Mesh(0, 0, map[], map[], map[], map[], map[])

  // ── The controller's steps ───────────────────────────────────────────────

  /** `dispatch`: claim the slot and open the stream; refused without a session or
      while a command of the kind is outstanding on the link. */
  predicate CanDispatch(m: Mesh, agent: string, link: LinkKey, kind: Kind) {
    agent in m.workers && m.workers[agent].session.Some? && CanBegin(m.workers, agent, link, kind)
  }

  function Dispatched(m: Mesh, agent: string, link: LinkKey, kind: Kind, token: nat, cost: nat): Mesh {
    if !CanDispatch(m, agent, link, kind) then m
    else m.(next := m.next + 1, workers := Begun(m.workers, agent, link, kind),
            streams := m.streams[m.next := Stream(agent, link, kind, token, cost, None)])
  }

  /** The throughput leg of `plan_tick` for a due link the passive tier has not proved:
      take the lease, dispatch, give the lease back if the dispatch is refused. */
  function PlannedTest(m: Mesh, agent: string, link: LinkKey): Mesh {
    var token := m.next;
    var acquired := m.(next := m.next + 1,
                       leases := Acquired(m.leases, agent, link, FENCE_TTL_SECS, m.now, token));
    if Blocked(Live(m.leases, m.now), link) then acquired
    else if CanDispatch(acquired, agent, link, Throughput) then
      var sent := Dispatched(acquired, agent, link, Throughput, token, 0);
      sent.(workers := Issued(sent.workers, agent, link, Throughput, m.now))
    else acquired.(leases := Released(acquired.leases, link, token))
  }

  function PlannedPing(m: Mesh, agent: string, link: LinkKey): Mesh {
    var sent := Dispatched(m, agent, link, Always, 0, 0);
    if CanDispatch(m, agent, link, Always)
    then sent.(workers := Issued(sent.workers, agent, link, Always, m.now)) else sent
  }

  /** Dispatch an apply and remember the cost as sent. */
  function SentCost(m: Mesh, agent: string, link: LinkKey, cost: nat): Mesh {
    var sent := Dispatched(m, agent, link, Apply, 0, cost);
    if CanDispatch(m, agent, link, Apply)
    then sent.(workers := AppliedSent(sent.workers, agent, link, cost)) else sent
  }

  /** The policy leg of `plan_tick`. */
  function PlannedCost(m: Mesh, agent: string, link: LinkKey, cost: nat): Mesh {
    if ApplyIsDue(m.workers, agent, link, cost, m.now) then SentCost(m, agent, link, cost) else m
  }

  /** `register` re-seeds every known cost. */
  function Seeded(m: Mesh, agent: string, links: seq<LinkKey>, costs: map<LinkKey, nat>): Mesh
    decreases |links|
  {
    if links == [] then m
    else
      var before := Seeded(m, agent, links[..|links| - 1], costs);
      var link := links[|links| - 1];
      if link in costs then SentCost(before, agent, link, costs[link]) else before
  }

  /** A registration before its seeds: `anew` on a connection of its own, which takes
      the place of any session the agent has, or else on the session it has. */
  function Cleared(m: Mesh, agent: string, anew: bool, links: seq<LinkKey>): Mesh {
    var own := if anew then None else Get(m.workers, agent).session;
    m.(next := m.next + 1,
       workers := Attached(Registered(m.workers, agent, links), agent, own, m.next),
       failed := map k | k in m.failed && k.0 != agent :: m.failed[k])
  }

  function RegisteredAgent(m: Mesh, agent: string, anew: bool, links: seq<LinkKey>, costs: map<LinkKey, nat>): Mesh {
    Seeded(Cleared(m, agent, anew, links), agent, links, costs)
  }

  /** The end of a stream: its slot is released. */
  function Closed(m: Mesh, id: nat): Mesh
    requires id in m.streams
  {
    var s := m.streams[id];
    m.(streams := m.streams - {id}, workers := Ended(m.workers, s.agent, s.link, s.kind))
  }

  /** `note_apply_failed`. */
  function NotedFailure(m: Mesh, s: Stream): Mesh {
    m.(workers := ApplyFailed(m.workers, s.agent, s.link, m.now), failed := m.failed[(s.agent, s.link) := m.now])
  }

  /** `handle_reply`, then the slot: a probe report gives its token back, an apply is
      settled either way. */
  function Replied(m: Mesh, id: nat): Mesh
    requires id in m.streams && m.streams[id].answer.Some?
  {
    var s := m.streams[id];
    var settled :=
      match s.kind
      case Always => m
      case Throughput => m.(leases := Released(m.leases, s.link, s.token))
      case Apply =>
        if s.answer.value then m.(workers := AppliedSent(m.workers, s.agent, s.link, s.cost))
        else NotedFailure(m, s);
    Closed(settled, id)
  }

  /** `on_failure`, then the slot: what the dispatch assumed is undone. */
  function Failed(m: Mesh, id: nat): Mesh
    requires id in m.streams
  {
    var s := m.streams[id];
    var undone :=
      match s.kind
      case Always => m
      case Throughput => m.(leases := Released(m.leases, s.link, s.token))
      case Apply => NotedFailure(m, s);
    Closed(undone, id)
  }

  /** The agent executes a command and answers. A successful apply becomes its desired
      cost for the interface. */
  function Executed(m: Mesh, id: nat, ok: bool): Mesh
    requires id in m.streams
  {
    var s := m.streams[id];
    var answered := m.(streams := m.streams[id := s.(answer := Some(ok))]);
    if s.kind == Apply && ok
    then answered.(desired := m.desired[(s.agent, s.link.iface) := s.cost]) else answered
  }

  datatype Action =
    | Tick(now: nat)
    | Register(agent: string, anew: bool, reported: seq<LinkKey>, costs: map<LinkKey, nat>)
    | Detach(agent: string, generation: nat)
    | PlanPing(agent: string, link: LinkKey)
    | PlanTest(agent: string, link: LinkKey)
    | PlanCost(agent: string, link: LinkKey, cost: nat)
    | Execute(id: nat, ok: bool)
    | Reply(id: nat)
    | Fail(id: nat)

  /** One step; an action that cannot happen leaves the mesh as it is. Streams are
      fail-stop: a failed one is gone and its command never executes afterwards. */
  function After(m: Mesh, a: Action): Mesh {
    match a
    case Tick(now) => if m.now <= now then m.(now := now) else m
    case Register(agent, anew, reported, costs) => RegisteredAgent(m, agent, anew, reported, costs)
    case Detach(agent, generation) => m.(workers := Detached(m.workers, agent, generation))
    case PlanPing(agent, link) =>
      if agent in m.workers && link in m.workers[agent].links then PlannedPing(m, agent, link) else m
    case PlanTest(agent, link) =>
      if agent in m.workers && link in m.workers[agent].links then PlannedTest(m, agent, link) else m
    case PlanCost(agent, link, cost) =>
      if agent in m.workers && link in m.workers[agent].links then PlannedCost(m, agent, link, cost) else m
    case Execute(id, ok) => if id in m.streams && m.streams[id].answer.None? then Executed(m, id, ok) else m
    case Reply(id) => if id in m.streams && m.streams[id].answer.Some? then Replied(m, id) else m
    case Fail(id) => if id in m.streams then Failed(m, id) else m
  }

  function Run(actions: seq<Action>): Mesh
    decreases |actions|
  {
    if actions == [] then START else After(Run(actions[..|actions| - 1]), actions[|actions| - 1])
  }

  // ── Registrations in order ───────────────────────────────────────────────

  /** The agent's outstanding commands of a kind. */
  ghost predicate Outstanding(m: Mesh, agent: string, kind: Kind, id: nat) {
    id in m.streams && m.streams[id].agent == agent && m.streams[id].kind == kind
  }

  /** A registration is in order for a kind of command when no command of the kind is
      outstanding on the agent, or, on the session the agent has, when it reports the
      link of every one that is. */
  ghost predicate InOrder(m: Mesh, agent: string, anew: bool, reported: seq<LinkKey>, kind: Kind) {
    forall id :: Outstanding(m, agent, kind, id) ==>
      !anew && agent in m.workers && m.streams[id].link in reported
  }

  ghost predicate OrderlyStep(m: Mesh, a: Action, kind: Kind) {
    a.Register? ==> InOrder(m, a.agent, a.anew, a.reported, kind)
  }

  /** Runs all of whose registrations are in order. */
  ghost predicate Orderly(actions: seq<Action>, kind: Kind)
    decreases |actions|
  {
    actions != [] ==>
      var front := actions[..|actions| - 1];
      Orderly(front, kind) && OrderlyStep(Run(front), actions[|actions| - 1], kind)
  }

  /** An agent knows its links by their interface. */
  ghost predicate DistinctIfaces(links: seq<LinkKey>) {
    forall l, k :: l in links && k in links && l.iface == k.iface ==> l == k
  }

  ghost predicate DistinctReports(actions: seq<Action>) {
    forall i :: 0 <= i < |actions| && actions[i].Register? ==> DistinctIfaces(actions[i].reported)
  }

  // ── Streams and leases ───────────────────────────────────────────────────

  ghost predicate StreamsNumbered(m: Mesh) { forall id :: id in m.streams ==> id < m.next }

  /** Every lease belongs to an outstanding throughput command with its token. */
  ghost predicate LeasesOk(m: Mesh) {
    && NodeDisjoint(m.leases)
    && (forall k :: k in m.leases ==> LeaseOk(m, m.leases[k]))
  }

  ghost predicate LeaseOk(m: Mesh, lease: Lease) {
    lease.token < m.next && lease.issuedAt <= m.now && lease.ttl == FENCE_TTL_SECS && Owned(m, lease)
  }

  ghost predicate Owned(m: Mesh, lease: Lease) {
    exists id :: id in m.streams && m.streams[id].kind == Throughput
              && m.streams[id].link == lease.link && m.streams[id].token == lease.token
  }

  /** What holds of the leases in every run. */
  ghost predicate LeaseInv(m: Mesh) { LeasesOk(m) && StreamsNumbered(m) }

  /** Streams stay open, whatever their answers. */
  ghost predicate StreamsStay(m: Mesh, m': Mesh) {
    forall id :: id in m.streams ==> id in m'.streams && SameCommand(m.streams[id], m'.streams[id])
  }

  predicate SameCommand(s: Stream, o: Stream) { s.(answer := None) == o.(answer := None) }

  lemma LeasesStay(m: Mesh, m': Mesh)
    requires LeasesOk(m) && m'.leases == m.leases && m.next <= m'.next && m.now <= m'.now && StreamsStay(m, m')
    ensures LeasesOk(m')
  {
  }

  lemma OwnedStays(m: Mesh, m': Mesh, lease: Lease)
    requires Owned(m, lease) && StreamsStay(m, m')
    ensures Owned(m', lease)
  {
  }

  /** What a dispatch changes. */
  lemma DispatchChanges(m: Mesh, agent: string, link: LinkKey, kind: Kind, token: nat, cost: nat)
    requires StreamsNumbered(m)
    ensures var m' := Dispatched(m, agent, link, kind, token, cost);
            && StreamsStay(m, m') && StreamsNumbered(m') && SameBooks(m, m') && m.next <= m'.next
            && m'.leases == m.leases && m'.failed == m.failed && m'.now == m.now && m'.desired == m.desired
            && (CanDispatch(m, agent, link, kind) ==>
                  && m.next !in m.streams
                  && m'.streams == m.streams[m.next := Stream(agent, link, kind, token, cost, None)]
                  && m'.workers == Begun(m.workers, agent, link, kind))
            && (!CanDispatch(m, agent, link, kind) ==> m' == m)
  {
    hide CanDispatch, Begun;
    BeginKeepsBooks(m, agent, link, kind);
  }

  lemma BeginKeepsBooks(m: Mesh, agent: string, link: LinkKey, kind: Kind)
    ensures SameBooks(m, m.(workers := Begun(m.workers, agent, link, kind)))
  {
  }

  /** The registry but for slots and issue times. */
  ghost predicate SameBooks(m: Mesh, m': Mesh) {
    && m.workers.Keys == m'.workers.Keys
    && forall a :: a in m.workers ==>
         && m.workers[a].links == m'.workers[a].links && m.workers[a].session == m'.workers[a].session
         && m.workers[a].appliedSent == m'.workers[a].appliedSent
         && m.workers[a].retryAt == m'.workers[a].retryAt
  }

  lemma LiveKeepsLeases(m: Mesh)
    requires LeasesOk(m)
    ensures LeasesOk(m.(next := m.next + 1, leases := Live(m.leases, m.now)))
  {
  }

  /** What the throughput leg does to leases and streams: a lease is only ever held by
      the test about to go out, dispatched with its token, or given back. */
  lemma TestLeases(m: Mesh, agent: string, link: LinkKey)
    requires LeaseInv(m)
    ensures LeaseInv(PlannedTest(m, agent, link))
  {
    hide NodeDisjoint, Lease.Occupies, Lease.Expired, CanDispatch, LeasesOk;
    var live := m.(next := m.next + 1, leases := Live(m.leases, m.now));
    LiveKeepsLeases(m);
    if Blocked(Live(m.leases, m.now), link) {
      assert PlannedTest(m, agent, link) == live;
    } else {
      GrantLeases(m, live, agent, link);
    }
  }

  lemma GrantLeases(m: Mesh, live: Mesh, agent: string, link: LinkKey)
    requires LeaseInv(m) && LeasesOk(live) && !Blocked(Live(m.leases, m.now), link)
    requires live == m.(next := m.next + 1, leases := Live(m.leases, m.now))
    ensures LeasesOk(PlannedTest(m, agent, link))
  {
    hide NodeDisjoint, Live, Lease.Occupies, Lease.Expired, CanDispatch, Blocked, LeaseOk;
    var token := m.next;
    var lease := Lease(agent, link, token, m.now, FENCE_TTL_SECS);
    assert NodeDisjoint(m.leases) && NodeDisjoint(live.leases);
    AcquireKeepsDisjoint(m.leases, agent, link, FENCE_TTL_SECS, m.now, token);
    assert Acquired(m.leases, agent, link, FENCE_TTL_SECS, m.now, token) == live.leases[link := lease];
    var m' := PlannedTest(m, agent, link);
    if m'.next == m.next + 2 {
      assert m'.streams == m.streams[m.next + 1 := Stream(agent, link, Throughput, token, 0, None)];
      hide LeasesOk, PlannedTest;
      LeaseGranted(live, m', lease);
    } else {
      NotBlockedIsFree(live.leases, link);
      assert m'.leases == live.leases;
      assert m' == live;
    }
  }

  /** The new lease is owned by the stream just opened, every other by its old one. */
  lemma LeaseGranted(m: Mesh, m': Mesh, lease: Lease)
    requires LeasesOk(m) && StreamsNumbered(m) && lease.token < m.next && m'.now == m.now
    requires lease.issuedAt == m.now && lease.ttl == FENCE_TTL_SECS
    requires m'.streams == m.streams[m.next := Stream(lease.holder, lease.link, Throughput, lease.token, 0, None)]
    requires m'.leases == m.leases[lease.link := lease] && m'.next == m.next + 1 && NodeDisjoint(m'.leases)
    ensures LeasesOk(m')
  {
    hide NodeDisjoint, Owned;
    assert StreamsStay(m, m');
    forall k | k in m'.leases ensures LeaseOk(m', m'.leases[k]) {
      if k == lease.link {
        StreamOwns(m', m.next, lease);
      } else {
        assert LeaseOk(m, m.leases[k]);
        OwnedStays(m, m', m.leases[k]);
      }
    }
  }

  lemma StreamOwns(m: Mesh, id: nat, lease: Lease)
    requires id in m.streams && m.streams[id].kind == Throughput
    requires m.streams[id].link == lease.link && m.streams[id].token == lease.token
    ensures Owned(m, lease)
  {
  }

  lemma NotBlockedIsFree(leases: Leases, link: LinkKey)
    requires NodeDisjoint(leases) && !Blocked(leases, link)
    ensures link !in leases
  {
  }

  lemma DispatchLeases(m: Mesh, agent: string, link: LinkKey, kind: Kind, token: nat, cost: nat)
    requires LeaseInv(m)
    ensures LeaseInv(Dispatched(m, agent, link, kind, token, cost))
  {
    hide CanDispatch, LeasesOk;
    DispatchChanges(m, agent, link, kind, token, cost);
    LeasesStay(m, Dispatched(m, agent, link, kind, token, cost));
  }

  lemma {:induction false} SeedLeases(m: Mesh, agent: string, links: seq<LinkKey>, costs: map<LinkKey, nat>)
    requires LeaseInv(m)
    ensures LeaseInv(Seeded(m, agent, links, costs))
    decreases |links|
  {
    hide LeaseInv, Dispatched, CanDispatch;
    if links != [] {
      SeedLeases(m, agent, links[..|links| - 1], costs);
      var link := links[|links| - 1];
      if link in costs {
        SentLeases(Seeded(m, agent, links[..|links| - 1], costs), agent, link, costs[link]);
      }
    }
  }

  lemma SentLeases(m: Mesh, agent: string, link: LinkKey, cost: nat)
    requires LeaseInv(m)
    ensures LeaseInv(SentCost(m, agent, link, cost))
  {
    hide LeasesOk, Dispatched, CanDispatch;
    DispatchLeases(m, agent, link, Apply, 0, cost);
    LeasesStay(Dispatched(m, agent, link, Apply, 0, cost), SentCost(m, agent, link, cost));
  }

  lemma RegisterLeases(m: Mesh, agent: string, anew: bool, links: seq<LinkKey>, costs: map<LinkKey, nat>)
    requires LeaseInv(m)
    ensures LeaseInv(RegisteredAgent(m, agent, anew, links, costs))
  {
    hide LeasesOk, Seeded, Attached, Registered;
    LeasesStay(m, Cleared(m, agent, anew, links));
    SeedLeases(Cleared(m, agent, anew, links), agent, links, costs);
  }

  lemma PingLeases(m: Mesh, agent: string, link: LinkKey)
    requires LeaseInv(m)
    ensures LeaseInv(PlannedPing(m, agent, link))
  {
    hide LeasesOk, Dispatched, CanDispatch, Issued;
    DispatchLeases(m, agent, link, Always, 0, 0);
    LeasesStay(Dispatched(m, agent, link, Always, 0, 0), PlannedPing(m, agent, link));
  }

  lemma ExecuteLeases(m: Mesh, id: nat, ok: bool)
    requires LeaseInv(m) && id in m.streams
    ensures LeaseInv(Executed(m, id, ok))
  {
    hide LeasesOk;
    LeasesStay(m, Executed(m, id, ok));
  }

  /** The end of a stream leaves no lease behind it: its own was given back. */
  lemma CloseLeases(m: Mesh, id: nat)
    requires LeasesOk(m) && id in m.streams
    requires m.streams[id].kind == Throughput ==>
               !(m.streams[id].link in m.leases && m.leases[m.streams[id].link].token == m.streams[id].token)
    ensures LeasesOk(Closed(m, id))
  {
    hide NodeDisjoint;
    var m', s := Closed(m, id), m.streams[id];
    forall k | k in m'.leases ensures LeaseOk(m', m'.leases[k]) {
      assert LeaseOk(m, m.leases[k]);
      FiledUnderLink(m.leases, k);
      var i :| i in m.streams && m.streams[i].kind == Throughput
            && m.streams[i].link == m.leases[k].link && m.streams[i].token == m.leases[k].token;
      assert i in m'.streams;
    }
  }

  lemma FiledUnderLink(leases: Leases, k: LinkKey)
    requires NodeDisjoint(leases) && k in leases
    ensures leases[k].link == k
  {
  }

  lemma ReleaseLeases(m: Mesh, link: LinkKey, token: nat)
    requires LeasesOk(m)
    ensures var m' := m.(leases := Released(m.leases, link, token));
            LeasesOk(m') && !(link in m'.leases && m'.leases[link].token == token)
  {
  }

  /** The end of a stream gives back its own lease and no other. */
  lemma EndLeases(m: Mesh, id: nat)
    requires LeaseInv(m) && id in m.streams
    ensures LeaseInv(Failed(m, id))
    ensures m.streams[id].answer.Some? ==> LeaseInv(Replied(m, id))
  {
    hide LeasesOk, Released, AppliedSent, ApplyFailed, Ended;
    var s := m.streams[id];
    var released := if s.kind == Throughput then m.(leases := Released(m.leases, s.link, s.token)) else m;
    if s.kind == Throughput {
      ReleaseLeases(m, s.link, s.token);
    }
    CloseLeases(released, id);
    LeasesStay(Closed(released, id), Failed(m, id));
    if s.answer.Some? {
      LeasesStay(Closed(released, id), Replied(m, id));
    }
  }

  /** Every action keeps the leases in order, a superseding registration included: a
      stream keeps its own token until its answer or its failure. */
  lemma StepKeepsLeases(m: Mesh, a: Action)
    requires LeaseInv(m)
    ensures LeaseInv(After(m, a))
  {
    hide LeasesOk, PlannedPing, PlannedTest, SentCost, RegisteredAgent, Executed, Replied, Failed;
    match a
    case Tick(now) =>
      LeasesStay(m, After(m, a));
    case Register(agent, anew, reported, costs) =>
      RegisterLeases(m, agent, anew, reported, costs);
    case Detach(agent, generation) =>
      LeasesStay(m, After(m, a));
    case PlanPing(agent, link) =>
      PingLeases(m, agent, link);
    case PlanTest(agent, link) =>
      TestLeases(m, agent, link);
    case PlanCost(agent, link, cost) =>
      SentLeases(m, agent, link, cost);
    case Execute(id, ok) =>
      if id in m.streams {
        ExecuteLeases(m, id, ok);
      }
    case Reply(id) =>
      if id in m.streams {
        EndLeases(m, id);
      }
    case Fail(id) =>
      if id in m.streams {
        EndLeases(m, id);
      }
  }

  lemma {:induction false} RunKeepsLeases(actions: seq<Action>)
    ensures LeaseInv(Run(actions))
    decreases |actions|
  {
    hide After;
    if actions != [] {
      RunKeepsLeases(actions[..|actions| - 1]);
      StepKeepsLeases(Run(actions[..|actions| - 1]), actions[|actions| - 1]);
    }
  }

  /** In every run, whatever agents register anew, no two leases share a node, every
      lease belongs to an outstanding throughput command, and so a quiescent controller
      holds none. */
  lemma LeasesBelongToTests(actions: seq<Action>)
    ensures var m := Run(actions);
            && NodeDisjoint(m.leases)
            && (forall k :: k in m.leases ==> Owned(m, m.leases[k]))
            && ((forall id :: id in m.streams ==> m.streams[id].kind != Throughput) ==> m.leases == map[])
  {
    RunKeepsLeases(actions);
    hide Run, NodeDisjoint;
    var m := Run(actions);
    forall k | k in m.leases ensures exists id :: id in m.streams && m.streams[id].kind == Throughput {
      assert LeaseOk(m, m.leases[k]);
    }
    assert m.leases.Keys == {} ==> m.leases == map[];
  }

  /** A late reply or failure frees no lease but its own: every lease with another
      token survives it. */
  lemma LateAnswersFreeNoSuccessor(m: Mesh, id: nat, k: LinkKey)
    requires id in m.streams && k in m.leases && m.leases[k].token != m.streams[id].token
    ensures k in Failed(m, id).leases && Failed(m, id).leases[k] == m.leases[k]
    ensures m.streams[id].answer.Some? ==> k in Replied(m, id).leases && Replied(m, id).leases[k] == m.leases[k]
  {
  }

  // ── Slots ────────────────────────────────────────────────────────────────

  predicate SameSlot(s: Stream, o: Stream) { s.agent == o.agent && s.link == o.link && s.kind == o.kind }

  predicate HoldsSlot(m: Mesh, s: Stream) {
    s.agent in m.workers ==>
      s.link in m.workers[s.agent].links && (s.link, s.kind) in m.workers[s.agent].inFlight
  }

  /** Every outstanding command of the kind has a slot of its own, and holds it while
      its agent is live. */
  ghost predicate SlotInv(m: Mesh, kind: Kind) {
    && StreamsNumbered(m)
    && (forall a :: a in m.workers ==> m.workers[a].session.Some?)
    && (forall id :: id in m.streams && m.streams[id].kind == kind ==> HoldsSlot(m, m.streams[id]))
    && (forall i, j :: i in m.streams && j in m.streams && i != j && m.streams[i].kind == kind ==>
          !SameSlot(m.streams[i], m.streams[j]))
  }

  /** Same links, sessions and slots, and the same commands outstanding. */
  ghost predicate SameSlots(m: Mesh, m': Mesh) {
    && m.next <= m'.next && m.workers.Keys == m'.workers.Keys && m.streams.Keys == m'.streams.Keys
    && (forall a :: a in m.workers ==>
          && m.workers[a].links == m'.workers[a].links && m.workers[a].session == m'.workers[a].session
          && m.workers[a].inFlight == m'.workers[a].inFlight)
    && (forall id :: id in m.streams ==> SameCommand(m.streams[id], m'.streams[id]))
  }

  lemma SlotsStay(m: Mesh, m': Mesh, kind: Kind)
    requires SlotInv(m, kind) && SameSlots(m, m')
    ensures SlotInv(m', kind)
  {
    forall id | id in m'.streams && m'.streams[id].kind == kind ensures HoldsSlot(m', m'.streams[id]) {
      assert HoldsSlot(m, m.streams[id]);
    }
    forall i, j | i in m'.streams && j in m'.streams && i != j && m'.streams[i].kind == kind
      ensures !SameSlot(m'.streams[i], m'.streams[j])
    {
      assert !SameSlot(m.streams[i], m.streams[j]);
    }
  }

  /** The link is one of the agent's, if the agent is live. */
  predicate Knows(m: Mesh, agent: string, link: LinkKey) {
    agent in m.workers ==> link in m.workers[agent].links
  }

  lemma DispatchSlots(m: Mesh, agent: string, link: LinkKey, k: Kind, token: nat, cost: nat, kind: Kind)
    requires SlotInv(m, kind) && Knows(m, agent, link)
    ensures SlotInv(Dispatched(m, agent, link, k, token, cost), kind)
  {
    if CanDispatch(m, agent, link, k) {
      DispatchedSlots(m, agent, link, k, token, cost, kind);
    }
  }

  lemma DispatchedSlots(m: Mesh, agent: string, link: LinkKey, k: Kind, token: nat, cost: nat, kind: Kind)
    requires SlotInv(m, kind) && Knows(m, agent, link) && CanDispatch(m, agent, link, k)
    ensures SlotInv(Dispatched(m, agent, link, k, token, cost), kind)
  {
    var m' := Dispatched(m, agent, link, k, token, cost);
    forall id | id in m'.streams && m'.streams[id].kind == kind ensures HoldsSlot(m', m'.streams[id]) {
      if id != m.next {
        assert HoldsSlot(m, m.streams[id]);
      }
    }
    forall i, j | i in m'.streams && j in m'.streams && i != j && m'.streams[i].kind == kind
      ensures !SameSlot(m'.streams[i], m'.streams[j])
    {
      var other := if i == m.next then j else i;
      assert HoldsSlot(m, m.streams[other]) || m.streams[other].kind != kind;
    }
  }

  lemma SentSlots(m: Mesh, agent: string, link: LinkKey, cost: nat, kind: Kind)
    requires SlotInv(m, kind) && Knows(m, agent, link)
    ensures SlotInv(SentCost(m, agent, link, cost), kind)
  {
    hide SlotInv, CanDispatch, Dispatched;
    DispatchSlots(m, agent, link, Apply, 0, cost, kind);
    SlotsStay(Dispatched(m, agent, link, Apply, 0, cost), SentCost(m, agent, link, cost), kind);
  }

  lemma PingSlots(m: Mesh, agent: string, link: LinkKey, kind: Kind)
    requires SlotInv(m, kind) && Knows(m, agent, link)
    ensures SlotInv(PlannedPing(m, agent, link), kind)
  {
    hide SlotInv, CanDispatch, Dispatched;
    DispatchSlots(m, agent, link, Always, 0, 0, kind);
    SlotsStay(Dispatched(m, agent, link, Always, 0, 0), PlannedPing(m, agent, link), kind);
  }

  lemma TestSlots(m: Mesh, agent: string, link: LinkKey, kind: Kind)
    requires SlotInv(m, kind) && Knows(m, agent, link)
    ensures SlotInv(PlannedTest(m, agent, link), kind)
  {
    hide SlotInv, CanDispatch, Dispatched, Acquired, Released, Blocked, Live;
    var acquired := m.(next := m.next + 1,
                       leases := Acquired(m.leases, agent, link, FENCE_TTL_SECS, m.now, m.next));
    SlotsStay(m, acquired, kind);
    var sent := Dispatched(acquired, agent, link, Throughput, m.next, 0);
    DispatchSlots(acquired, agent, link, Throughput, m.next, 0, kind);
    SlotsStay(acquired, acquired.(leases := Released(acquired.leases, link, m.next)), kind);
    SlotsStay(sent, sent.(workers := Issued(sent.workers, agent, link, Throughput, m.now)), kind);
  }

  lemma ClearSlots(m: Mesh, agent: string, anew: bool, reported: seq<LinkKey>, kind: Kind)
    requires SlotInv(m, kind) && InOrder(m, agent, anew, reported, kind)
    ensures SlotInv(Cleared(m, agent, anew, reported), kind)
    ensures var m' := Cleared(m, agent, anew, reported);
            agent in m'.workers && m'.workers[agent].links == reported
  {
    var m' := Cleared(m, agent, anew, reported);
    forall id | id in m'.streams && m'.streams[id].kind == kind ensures HoldsSlot(m', m'.streams[id]) {
      assert HoldsSlot(m, m.streams[id]);
      assert m.streams[id].agent == agent ==> Outstanding(m, agent, kind, id);
    }
  }

  lemma {:induction false} SeedSlots(m: Mesh, agent: string, some: seq<LinkKey>, costs: map<LinkKey, nat>, kind: Kind)
    requires SlotInv(m, kind) && forall l :: l in some ==> Knows(m, agent, l)
    ensures SlotInv(Seeded(m, agent, some, costs), kind)
    ensures forall l :: Knows(m, agent, l) ==> Knows(Seeded(m, agent, some, costs), agent, l)
    decreases |some|
  {
    hide SlotInv, SentCost, Knows;
    if some != [] {
      var front, link := some[..|some| - 1], some[|some| - 1];
      SeedSlots(m, agent, front, costs, kind);
      if link in costs {
        SentSlots(Seeded(m, agent, front, costs), agent, link, costs[link], kind);
        SentKnows(Seeded(m, agent, front, costs), agent, link, costs[link]);
      }
    }
  }

  lemma SentKnows(m: Mesh, agent: string, link: LinkKey, cost: nat)
    ensures forall l :: Knows(m, agent, l) ==> Knows(SentCost(m, agent, link, cost), agent, l)
  {
  }

  lemma RegisterSlots(m: Mesh, agent: string, anew: bool, reported: seq<LinkKey>, costs: map<LinkKey, nat>, kind: Kind)
    requires SlotInv(m, kind) && InOrder(m, agent, anew, reported, kind)
    ensures SlotInv(RegisteredAgent(m, agent, anew, reported, costs), kind)
  {
    hide SlotInv, Cleared, Seeded;
    ClearSlots(m, agent, anew, reported, kind);
    SeedSlots(Cleared(m, agent, anew, reported), agent, reported, costs, kind);
  }

  lemma DetachSlots(m: Mesh, agent: string, kind: Kind)
    requires SlotInv(m, kind)
    ensures SlotInv(m.(workers := m.workers - {agent}), kind)
  {
  }

  lemma CloseSlots(m: Mesh, id: nat, kind: Kind)
    requires SlotInv(m, kind) && id in m.streams
    ensures SlotInv(Closed(m, id), kind)
  {
    var m', s := Closed(m, id), m.streams[id];
    forall i | i in m'.streams && m'.streams[i].kind == kind ensures HoldsSlot(m', m'.streams[i]) {
      assert HoldsSlot(m, m.streams[i]);
      assert !SameSlot(m.streams[i], s);
    }
    forall i, j | i in m'.streams && j in m'.streams && i != j && m'.streams[i].kind == kind
      ensures !SameSlot(m'.streams[i], m'.streams[j])
    {
      assert !SameSlot(m.streams[i], m.streams[j]);
    }
  }

  lemma NotingKeepsSlots(m: Mesh, s: Stream)
    ensures SameSlots(m, NotedFailure(m, s))
  {
  }

  lemma ConfirmingKeepsSlots(m: Mesh, s: Stream)
    ensures SameSlots(m, m.(workers := AppliedSent(m.workers, s.agent, s.link, s.cost)))
  {
  }

  lemma ReleasingKeepsSlots(m: Mesh, leases: Leases)
    ensures SameSlots(m, m.(leases := leases))
  {
  }

  lemma EndSlots(m: Mesh, id: nat, kind: Kind)
    requires SlotInv(m, kind) && id in m.streams
    ensures SlotInv(Failed(m, id), kind)
    ensures m.streams[id].answer.Some? ==> SlotInv(Replied(m, id), kind)
  {
    hide SlotInv, Closed, Released, SameSlots;
    var s := m.streams[id];
    NotingKeepsSlots(m, s);
    ConfirmingKeepsSlots(m, s);
    ReleasingKeepsSlots(m, Released(m.leases, s.link, s.token));
    var noted := NotedFailure(m, s);
    var sent := m.(workers := AppliedSent(m.workers, s.agent, s.link, s.cost));
    var released := m.(leases := Released(m.leases, s.link, s.token));
    SlotsStay(m, noted, kind);
    SlotsStay(m, sent, kind);
    SlotsStay(m, released, kind);
    hide NotedFailure, AppliedSent;
    CloseSlots(m, id, kind);
    CloseSlots(noted, id, kind);
    CloseSlots(sent, id, kind);
    CloseSlots(released, id, kind);
  }

  lemma ExecuteSlots(m: Mesh, id: nat, ok: bool, kind: Kind)
    requires SlotInv(m, kind) && id in m.streams
    ensures SlotInv(Executed(m, id, ok), kind)
  {
    hide SlotInv;
    SlotsStay(m, Executed(m, id, ok), kind);
  }

  /** Every step keeps the slots of a kind, if it is no registration out of order for it. */
  lemma StepKeepsSlots(m: Mesh, a: Action, kind: Kind)
    requires SlotInv(m, kind) && OrderlyStep(m, a, kind)
    ensures SlotInv(After(m, a), kind)
  {
    hide SlotInv, InOrder, PlannedPing, PlannedTest, SentCost, RegisteredAgent, Executed, Replied, Failed;
    match a
    case Tick(now) =>
      SlotsStay(m, After(m, a), kind);
    case Register(agent, anew, reported, costs) =>
      RegisterSlots(m, agent, anew, reported, costs, kind);
    case Detach(agent, generation) =>
      DetachSlots(m, agent, kind);
    case PlanPing(agent, link) =>
      if agent in m.workers && link in m.workers[agent].links {
        PingSlots(m, agent, link, kind);
      }
    case PlanTest(agent, link) =>
      if agent in m.workers && link in m.workers[agent].links {
        TestSlots(m, agent, link, kind);
      }
    case PlanCost(agent, link, cost) =>
      if agent in m.workers && link in m.workers[agent].links {
        SentSlots(m, agent, link, cost, kind);
      }
    case Execute(id, ok) =>
      if id in m.streams {
        ExecuteSlots(m, id, ok, kind);
      }
    case Reply(id) =>
      if id in m.streams {
        EndSlots(m, id, kind);
      }
    case Fail(id) =>
      if id in m.streams {
        EndSlots(m, id, kind);
      }
  }

  lemma {:induction false} RunKeepsSlots(actions: seq<Action>, kind: Kind)
    requires Orderly(actions, kind)
    ensures SlotInv(Run(actions), kind)
    decreases |actions|
  {
    hide After, OrderlyStep;
    if actions != [] {
      RunKeepsSlots(actions[..|actions| - 1], kind);
      StepKeepsSlots(Run(actions[..|actions| - 1]), actions[|actions| - 1], kind);
    }
  }

  /** Whether at most one command of the kind is outstanding on any agent's link. */
  ghost predicate OneEach(m: Mesh, kind: Kind) {
    forall i, j :: i in m.streams && j in m.streams && i != j && m.streams[i].kind == kind ==>
      !SameSlot(m.streams[i], m.streams[j])
  }

  lemma OneCommandPerSlot(actions: seq<Action>, kind: Kind)
    requires Orderly(actions, kind)
    ensures OneEach(Run(actions), kind)
  {
    RunKeepsSlots(actions, kind);
    hide Run;
  }

  // ── Costs ────────────────────────────────────────────────────────────────

  predicate IsApply(s: Stream, agent: string, link: LinkKey) { s.agent == agent && s.link == link && s.kind == Apply }

  predicate Desires(m: Mesh, agent: string, link: LinkKey, cost: nat) {
    (agent, link.iface) in m.desired && m.desired[(agent, link.iface)] == cost
  }

  /** A cost the controller believes sent is outstanding or desired. */
  ghost predicate Believed(m: Mesh, agent: string, link: LinkKey, cost: nat) {
    || (exists id :: id in m.streams && IsApply(m.streams[id], agent, link) && m.streams[id].cost == cost)
    || Desires(m, agent, link, cost)
  }

  /** An apply's stream, the cost sent and the agent's desired cost fit together. */
  ghost predicate ApplyOk(m: Mesh, s: Stream) {
    s.kind == Apply && s.agent in m.workers ==>
      && (s.link in m.workers[s.agent].appliedSent ==> m.workers[s.agent].appliedSent[s.link] == s.cost)
      && (s.answer == Some(true) ==> Desires(m, s.agent, s.link, s.cost))
  }

  ghost predicate AppliesOk(m: Mesh) {
    && (forall id :: id in m.streams ==> ApplyOk(m, m.streams[id]))
    && (forall a, l :: a in m.workers && l in m.workers[a].appliedSent ==>
          Believed(m, a, l, m.workers[a].appliedSent[l]))
  }

  /** After a failure the back-off is still set, or has passed. */
  ghost predicate BackoffOk(m: Mesh) {
    forall k :: k in m.failed ==>
      && m.failed[k] <= m.now
      && (k.0 in m.workers && m.now < m.failed[k] + APPLY_RETRY_SECS ==>
            k.1 in m.workers[k.0].retryAt && m.workers[k.0].retryAt[k.1] == m.failed[k] + APPLY_RETRY_SECS)
  }

  /** No failed apply of the link is in its back-off. */
  predicate Rested(m: Mesh, agent: string, link: LinkKey) {
    (agent, link) in m.failed ==> m.failed[(agent, link)] + APPLY_RETRY_SECS <= m.now
  }

  /** An outstanding apply went out when no back-off was pending, and none began. */
  ghost predicate AppliesRested(m: Mesh) {
    forall id :: id in m.streams && m.streams[id].kind == Apply && m.streams[id].agent in m.workers
      ==> Rested(m, m.streams[id].agent, m.streams[id].link)
  }

  /** An agent's links, and the links of its outstanding applies, are known by their
      interface. */
  ghost predicate IfacesOk(m: Mesh) {
    && (forall a :: a in m.workers ==>
          && DistinctIfaces(m.workers[a].links)
          && forall l :: l in m.workers[a].appliedSent ==> l in m.workers[a].links)
    && (forall i, j :: i in m.streams && j in m.streams ==> !SharedIface(m.streams[i], m.streams[j]))
  }

  predicate SharedIface(s: Stream, o: Stream) {
    s.kind == o.kind == Apply && s.agent == o.agent && s.link.iface == o.link.iface && s.link != o.link
  }

  /** What the controller believes of costs. */
  ghost predicate PolicyInv(m: Mesh) { AppliesOk(m) && BackoffOk(m) && AppliesRested(m) && IfacesOk(m) }

  ghost predicate CostInv(m: Mesh) { SlotInv(m, Apply) && PolicyInv(m) }

  // ── Steps that touch no cost ─────────────────────────────────────────────

  predicate ApplyIn(m: Mesh, id: nat) { id in m.streams && m.streams[id].kind == Apply }

  /** The same applies outstanding, and nothing said of costs. */
  ghost predicate SamePolicy(m: Mesh, m': Mesh) {
    && SameBooks(m, m') && m'.desired == m.desired && m'.failed == m.failed && m.now <= m'.now
    && forall id :: (ApplyIn(m, id) || ApplyIn(m', id)) ==>
         id in m.streams && id in m'.streams && m.streams[id] == m'.streams[id]
  }

  lemma PolicyStays(m: Mesh, m': Mesh)
    requires PolicyInv(m) && SamePolicy(m, m')
    ensures PolicyInv(m')
  {
    hide AppliesOk, BackoffOk, AppliesRested, IfacesOk, SamePolicy;
    AppliesStay(m, m');
    BackoffStays(m, m');
    RestStays(m, m');
    IfacesStay(m, m');
  }

  lemma AppliesStay(m: Mesh, m': Mesh)
    requires AppliesOk(m) && SamePolicy(m, m')
    ensures AppliesOk(m')
  {
    forall id | id in m'.streams ensures ApplyOk(m', m'.streams[id]) {
      if ApplyIn(m', id) {
        assert ApplyOk(m, m.streams[id]);
      }
    }
    hide ApplyOk;
    forall a, l | a in m'.workers && l in m'.workers[a].appliedSent
      ensures Believed(m', a, l, m'.workers[a].appliedSent[l])
    {
      BeliefStays(m, m', a, l, m.workers[a].appliedSent[l]);
    }
  }

  /** A belief stays while its apply or the desired cost does. */
  lemma BeliefStays(m: Mesh, m': Mesh, agent: string, link: LinkKey, cost: nat)
    requires Believed(m, agent, link, cost)
    requires forall id :: ApplyIn(m, id) ==> id in m'.streams && SameCommand(m.streams[id], m'.streams[id])
    requires Desires(m, agent, link, cost) ==> Desires(m', agent, link, cost)
    ensures Believed(m', agent, link, cost)
  {
    if !Desires(m, agent, link, cost) {
      var id :| id in m.streams && IsApply(m.streams[id], agent, link) && m.streams[id].cost == cost;
      assert ApplyIn(m, id);
    }
  }

  lemma BackoffStays(m: Mesh, m': Mesh)
    requires BackoffOk(m) && SamePolicy(m, m')
    ensures BackoffOk(m')
  {
  }

  lemma RestStays(m: Mesh, m': Mesh)
    requires AppliesRested(m) && SamePolicy(m, m')
    ensures AppliesRested(m')
  {
    forall id | ApplyIn(m', id) && m'.streams[id].agent in m'.workers
      ensures Rested(m', m'.streams[id].agent, m'.streams[id].link)
    {
      assert ApplyIn(m', id);
    }
  }

  lemma IfacesStay(m: Mesh, m': Mesh)
    requires IfacesOk(m) && SamePolicy(m, m')
    ensures IfacesOk(m')
  {
    forall i, j | i in m'.streams && j in m'.streams ensures !SharedIface(m'.streams[i], m'.streams[j]) {
      if ApplyIn(m', i) && ApplyIn(m', j) {
        assert !SharedIface(m.streams[i], m.streams[j]);
      }
    }
  }

  lemma DispatchPolicy(m: Mesh, agent: string, link: LinkKey, kind: Kind, token: nat)
    requires StreamsNumbered(m) && kind != Apply
    ensures SamePolicy(m, Dispatched(m, agent, link, kind, token, 0))
  {
    DispatchChanges(m, agent, link, kind, token, 0);
    hide Dispatched, SameBooks, CanDispatch;
  }

  lemma IssuePolicy(m: Mesh, agent: string, link: LinkKey, kind: Kind, now: nat)
    ensures SamePolicy(m, m.(workers := Issued(m.workers, agent, link, kind, now)))
  {
  }

  lemma LeasePolicy(m: Mesh, next: nat, leases: Leases)
    ensures SamePolicy(m, m.(next := next, leases := leases))
  {
  }

  lemma PingPolicy(m: Mesh, agent: string, link: LinkKey)
    requires PolicyInv(m) && StreamsNumbered(m)
    ensures PolicyInv(PlannedPing(m, agent, link))
  {
    hide PolicyInv, SamePolicy, Dispatched, CanDispatch, Issued;
    var sent := Dispatched(m, agent, link, Always, 0, 0);
    DispatchPolicy(m, agent, link, Always, 0);
    PolicyStays(m, sent);
    IssuePolicy(sent, agent, link, Always, m.now);
    PolicyStays(sent, sent.(workers := Issued(sent.workers, agent, link, Always, m.now)));
  }

  lemma TestPolicy(m: Mesh, agent: string, link: LinkKey)
    requires PolicyInv(m) && StreamsNumbered(m)
    ensures PolicyInv(PlannedTest(m, agent, link))
  {
    hide PolicyInv, SamePolicy, Dispatched, CanDispatch, Issued, Acquired, Released, Blocked, Live;
    var leases := Acquired(m.leases, agent, link, FENCE_TTL_SECS, m.now, m.next);
    var acquired := m.(next := m.next + 1, leases := leases);
    LeasePolicy(m, m.next + 1, leases);
    PolicyStays(m, acquired);
    var freed := Released(leases, link, m.next);
    LeasePolicy(acquired, acquired.next, freed);
    PolicyStays(acquired, acquired.(leases := freed));
    var sent := Dispatched(acquired, agent, link, Throughput, m.next, 0);
    assert StreamsNumbered(acquired);
    DispatchPolicy(acquired, agent, link, Throughput, m.next);
    PolicyStays(acquired, sent);
    IssuePolicy(sent, agent, link, Throughput, m.now);
    PolicyStays(sent, sent.(workers := Issued(sent.workers, agent, link, Throughput, m.now)));
  }

  lemma OtherEndPolicy(m: Mesh, id: nat)
    requires id in m.streams && m.streams[id].kind != Apply
    ensures SamePolicy(m, Failed(m, id))
    ensures m.streams[id].answer.Some? ==> SamePolicy(m, Replied(m, id))
  {
    hide SamePolicy, Closed, Released;
    var s := m.streams[id];
    ClosePolicy(m, m, id);
    ClosePolicy(m, m.(leases := Released(m.leases, s.link, s.token)), id);
  }

  lemma ClosePolicy(m: Mesh, settled: Mesh, id: nat)
    requires id in m.streams && m.streams[id].kind != Apply && settled == m.(leases := settled.leases)
    ensures SamePolicy(m, Closed(settled, id))
  {
  }

  lemma OtherExecutePolicy(m: Mesh, id: nat, ok: bool)
    requires id in m.streams && m.streams[id].kind != Apply
    ensures SamePolicy(m, Executed(m, id, ok))
  {
  }

  // ── Sending a cost ───────────────────────────────────────────────────────

  lemma SentPolicy(m: Mesh, agent: string, link: LinkKey, cost: nat)
    requires CostInv(m) && Knows(m, agent, link) && Rested(m, agent, link)
    ensures PolicyInv(SentCost(m, agent, link, cost))
  {
    hide SlotInv, AppliesOk, BackoffOk, AppliesRested, IfacesOk;
    if CanDispatch(m, agent, link, Apply) {
      SentEffect(m, agent, link, cost);
      var m' := SentCost(m, agent, link, cost);
      hide SentCost, CanDispatch;
      SentApplies(m, m', agent, link, cost);
      SentBackoff(m, m', agent, link, cost);
      SentRest(m, m', agent, link, cost);
      SentIfaces(m, m', agent, link, cost);
    }
  }

  ghost predicate SentStep(m: Mesh, m': Mesh, agent: string, link: LinkKey, cost: nat) {
    && m.next !in m.streams && m'.streams == m.streams[m.next := Stream(agent, link, Apply, 0, cost, None)]
    && m'.now == m.now && m'.desired == m.desired && m'.failed == m.failed
    && agent in m.workers && m'.workers.Keys == m.workers.Keys
    && (forall a :: a in m.workers && a != agent ==> m'.workers[a] == m.workers[a])
    && m'.workers[agent].links == m.workers[agent].links
    && m'.workers[agent].appliedSent == m.workers[agent].appliedSent[link := cost]
    && m'.workers[agent].retryAt == m.workers[agent].retryAt - {link}
    && forall id :: id in m.streams ==> !IsApply(m.streams[id], agent, link)
  }

  lemma SentEffect(m: Mesh, agent: string, link: LinkKey, cost: nat)
    requires SlotInv(m, Apply) && CanDispatch(m, agent, link, Apply)
    ensures SentStep(m, SentCost(m, agent, link, cost), agent, link, cost)
  {
    forall id | id in m.streams ensures !IsApply(m.streams[id], agent, link) {
      assert m.streams[id].kind == Apply ==> HoldsSlot(m, m.streams[id]);
    }
  }

  lemma SentApplies(m: Mesh, m': Mesh, agent: string, link: LinkKey, cost: nat)
    requires AppliesOk(m) && SentStep(m, m', agent, link, cost)
    ensures AppliesOk(m')
  {
    forall id | id in m'.streams ensures ApplyOk(m', m'.streams[id]) {
      if id != m.next {
        assert ApplyOk(m, m.streams[id]) && !IsApply(m.streams[id], agent, link);
      }
    }
    hide ApplyOk;
    forall a, l | a in m'.workers && l in m'.workers[a].appliedSent
      ensures Believed(m', a, l, m'.workers[a].appliedSent[l])
    {
      if a == agent && l == link {
        assert IsApply(m'.streams[m.next], a, l) && m'.streams[m.next].cost == cost;
      } else {
        BeliefStays(m, m', a, l, m.workers[a].appliedSent[l]);
      }
    }
  }

  lemma SentBackoff(m: Mesh, m': Mesh, agent: string, link: LinkKey, cost: nat)
    requires BackoffOk(m) && SentStep(m, m', agent, link, cost) && Rested(m, agent, link)
    ensures BackoffOk(m')
  {
  }

  lemma SentRest(m: Mesh, m': Mesh, agent: string, link: LinkKey, cost: nat)
    requires AppliesRested(m) && SentStep(m, m', agent, link, cost) && Rested(m, agent, link)
    ensures AppliesRested(m')
  {
  }

  lemma SentIfaces(m: Mesh, m': Mesh, agent: string, link: LinkKey, cost: nat)
    requires IfacesOk(m) && SlotInv(m, Apply) && SentStep(m, m', agent, link, cost) && Knows(m, agent, link)
    ensures IfacesOk(m')
  {
    forall i, j | i in m'.streams && j in m'.streams ensures !SharedIface(m'.streams[i], m'.streams[j]) {
      if i != m.next && j != m.next {
        assert !SharedIface(m.streams[i], m.streams[j]);
      } else if i != j {
        var other := if i == m.next then j else i;
        assert m.streams[other].kind == Apply ==> HoldsSlot(m, m.streams[other]);
      }
    }
  }

  lemma DueIsRested(m: Mesh, agent: string, link: LinkKey, cost: nat)
    requires BackoffOk(m) && ApplyIsDue(m.workers, agent, link, cost, m.now)
    ensures Rested(m, agent, link)
  {
  }

  lemma PlannedCostPolicy(m: Mesh, agent: string, link: LinkKey, cost: nat)
    requires CostInv(m) && Knows(m, agent, link)
    ensures PolicyInv(PlannedCost(m, agent, link, cost))
  {
    hide SentCost;
    if ApplyIsDue(m.workers, agent, link, cost, m.now) {
      DueIsRested(m, agent, link, cost);
      SentPolicy(m, agent, link, cost);
    }
  }

  // ── Registering ──────────────────────────────────────────────────────────

  lemma ClearPolicy(m: Mesh, agent: string, anew: bool, reported: seq<LinkKey>)
    requires CostInv(m) && InOrder(m, agent, anew, reported, Apply) && DistinctIfaces(reported)
    ensures PolicyInv(Cleared(m, agent, anew, reported))
    ensures forall l :: Rested(Cleared(m, agent, anew, reported), agent, l)
  {
    hide AppliesOk, BackoffOk, AppliesRested, IfacesOk, InOrder;
    ClearEffect(m, agent, anew, reported);
    hide Cleared, SlotInv;
    var m' := Cleared(m, agent, anew, reported);
    ClearApplies(m, m', agent, anew, reported);
    ClearBackoff(m, m', agent, reported);
    ClearRest(m, m', agent, anew, reported);
    ClearIfaces(m, m', agent, reported);
  }

  ghost predicate ClearStep(m: Mesh, m': Mesh, agent: string, reported: seq<LinkKey>) {
    && m'.streams == m.streams && m'.now == m.now && m'.desired == m.desired
    && m'.failed == (map k | k in m.failed && k.0 != agent :: m.failed[k])
    && m'.workers.Keys == m.workers.Keys + {agent}
    && (forall a :: a in m.workers && a != agent ==> m'.workers[a] == m.workers[a])
    && m'.workers[agent].links == reported
    && m'.workers[agent].appliedSent == map[] && m'.workers[agent].retryAt == map[]
  }

  lemma ClearEffect(m: Mesh, agent: string, anew: bool, reported: seq<LinkKey>)
    ensures ClearStep(m, Cleared(m, agent, anew, reported), agent, reported)
  {
  }

  lemma ClearApplies(m: Mesh, m': Mesh, agent: string, anew: bool, reported: seq<LinkKey>)
    requires AppliesOk(m) && InOrder(m, agent, anew, reported, Apply) && ClearStep(m, m', agent, reported)
    ensures AppliesOk(m')
  {
    forall id | id in m'.streams ensures ApplyOk(m', m'.streams[id]) {
      assert ApplyOk(m, m.streams[id]);
      assert ApplyIn(m, id) && m.streams[id].agent == agent ==> Outstanding(m, agent, Apply, id);
    }
    hide ApplyOk, InOrder;
    forall a, l | a in m'.workers && l in m'.workers[a].appliedSent
      ensures Believed(m', a, l, m'.workers[a].appliedSent[l])
    {
      assert a != agent;
      BeliefStays(m, m', a, l, m.workers[a].appliedSent[l]);
    }
  }

  lemma ClearBackoff(m: Mesh, m': Mesh, agent: string, reported: seq<LinkKey>)
    requires BackoffOk(m) && ClearStep(m, m', agent, reported)
    ensures BackoffOk(m') && forall l :: Rested(m', agent, l)
  {
  }

  lemma ClearRest(m: Mesh, m': Mesh, agent: string, anew: bool, reported: seq<LinkKey>)
    requires AppliesRested(m) && ClearStep(m, m', agent, reported)
    ensures AppliesRested(m')
  {
  }

  lemma ClearIfaces(m: Mesh, m': Mesh, agent: string, reported: seq<LinkKey>)
    requires IfacesOk(m) && ClearStep(m, m', agent, reported) && DistinctIfaces(reported)
    ensures IfacesOk(m')
  {
  }

  lemma {:induction false} SeedPolicy(m: Mesh, agent: string, some: seq<LinkKey>, costs: map<LinkKey, nat>)
    requires CostInv(m) && (forall l :: l in some ==> Knows(m, agent, l)) && forall l :: Rested(m, agent, l)
    ensures CostInv(Seeded(m, agent, some, costs))
    ensures forall l :: Rested(Seeded(m, agent, some, costs), agent, l)
    decreases |some|
  {
    hide SlotInv, PolicyInv, SentCost, Knows, Rested;
    if some != [] {
      var front, link := some[..|some| - 1], some[|some| - 1];
      SeedPolicy(m, agent, front, costs);
      SeedSlots(m, agent, front, costs, Apply);
      var before := Seeded(m, agent, front, costs);
      if link in costs {
        SentSlots(before, agent, link, costs[link], Apply);
        SentPolicy(before, agent, link, costs[link]);
        SentKeepsRest(before, agent, link, costs[link]);
      }
    }
  }

  lemma SentKeepsRest(m: Mesh, agent: string, link: LinkKey, cost: nat)
    ensures forall l :: Rested(m, agent, l) ==> Rested(SentCost(m, agent, link, cost), agent, l)
  {
  }

  lemma RegisterPolicy(m: Mesh, agent: string, anew: bool, reported: seq<LinkKey>, costs: map<LinkKey, nat>)
    requires CostInv(m) && InOrder(m, agent, anew, reported, Apply) && DistinctIfaces(reported)
    ensures CostInv(RegisteredAgent(m, agent, anew, reported, costs))
  {
    hide SlotInv, PolicyInv, Cleared, Seeded, Rested, InOrder;
    ClearSlots(m, agent, anew, reported, Apply);
    ClearPolicy(m, agent, anew, reported);
    SeedPolicy(Cleared(m, agent, anew, reported), agent, reported, costs);
  }

  lemma DetachPolicy(m: Mesh, agent: string)
    requires PolicyInv(m)
    ensures PolicyInv(m.(workers := m.workers - {agent}))
  {
    hide Believed, Desires;
    var m' := m.(workers := m.workers - {agent});
    assert forall id :: id in m.streams ==> ApplyOk(m, m.streams[id]);
    forall a, l | a in m'.workers && l in m'.workers[a].appliedSent
      ensures Believed(m', a, l, m'.workers[a].appliedSent[l])
    {
      SameStreamsBelieved(m, m', a, l, m.workers[a].appliedSent[l]);
    }
    SameStreamsApplies(m, m', agent);
  }

  lemma SameStreamsApplies(m: Mesh, m': Mesh, agent: string)
    requires AppliesOk(m) && m' == m.(workers := m.workers - {agent})
    ensures forall id :: id in m'.streams ==> ApplyOk(m', m'.streams[id])
  {
  }

  lemma SameStreamsBelieved(m: Mesh, m': Mesh, agent: string, link: LinkKey, cost: nat)
    requires Believed(m, agent, link, cost) && m'.streams == m.streams && m'.desired == m.desired
    ensures Believed(m', agent, link, cost)
  {
  }

  // ── The agent's answer ───────────────────────────────────────────────────

  lemma ExecutePolicy(m: Mesh, id: nat, ok: bool)
    requires CostInv(m) && id in m.streams
    ensures PolicyInv(Executed(m, id, ok))
  {
    hide SlotInv, AppliesOk, BackoffOk, AppliesRested, IfacesOk, Executed;
    if m.streams[id].kind != Apply {
      OtherExecutePolicy(m, id, ok);
      PolicyStays(m, Executed(m, id, ok));
    } else {
      ExecuteApplies(m, id, ok);
      ExecuteRest(m, id, ok);
    }
  }

  lemma ExecuteApplies(m: Mesh, id: nat, ok: bool)
    requires CostInv(m) && id in m.streams && m.streams[id].kind == Apply
    ensures AppliesOk(Executed(m, id, ok))
  {
    hide SlotInv, BackoffOk, AppliesRested, Believed, ApplyOk, Executed, IfacesOk;
    var m' := Executed(m, id, ok);
    assert m'.streams.Keys == m.streams.Keys && m'.workers == m.workers by { ExecuteFrame(m, id, ok); }
    forall i | i in m'.streams ensures ApplyOk(m', m'.streams[i]) {
      ExecuteKeepsApply(m, id, ok, i);
    }
    forall a, l | a in m'.workers && l in m'.workers[a].appliedSent
      ensures Believed(m', a, l, m'.workers[a].appliedSent[l])
    {
      ExecuteBelieved(m, id, ok, a, l);
    }
  }

  lemma ExecuteFrame(m: Mesh, id: nat, ok: bool)
    requires id in m.streams
    ensures Executed(m, id, ok).streams.Keys == m.streams.Keys && Executed(m, id, ok).workers == m.workers
  {
  }

  lemma ExecuteKeepsApply(m: Mesh, id: nat, ok: bool, i: nat)
    requires CostInv(m) && id in m.streams && m.streams[id].kind == Apply && i in m.streams
    ensures i in Executed(m, id, ok).streams && ApplyOk(Executed(m, id, ok), Executed(m, id, ok).streams[i])
  {
    hide BackoffOk, AppliesRested, Believed;
    assert ApplyOk(m, m.streams[i]) && !SharedIface(m.streams[i], m.streams[id]);
    assert i != id ==> !SameSlot(m.streams[i], m.streams[id]);
  }

  lemma ExecuteBelieved(m: Mesh, id: nat, ok: bool, agent: string, link: LinkKey)
    requires CostInv(m) && id in m.streams && m.streams[id].kind == Apply
    requires agent in m.workers && link in m.workers[agent].appliedSent
    ensures Believed(Executed(m, id, ok), agent, link, m.workers[agent].appliedSent[link])
  {
    hide BackoffOk, AppliesRested, Believed;
    var s, m', cost := m.streams[id], Executed(m, id, ok), m.workers[agent].appliedSent[link];
    assert Believed(m, agent, link, cost) && ApplyOk(m, s) && HoldsSlot(m, s);
    if IsApply(s, agent, link) {
      StillBelieved(m, id, ok, agent, link, cost);
    } else {
      hide AppliesOk, SlotInv;
      BeliefStays(m, m', agent, link, cost);
    }
  }

  lemma StillBelieved(m: Mesh, id: nat, ok: bool, agent: string, link: LinkKey, cost: nat)
    requires id in m.streams && IsApply(m.streams[id], agent, link) && m.streams[id].cost == cost
    ensures Believed(Executed(m, id, ok), agent, link, cost)
  {
    assert Executed(m, id, ok).streams[id] == m.streams[id].(answer := Some(ok));
  }

  lemma ExecuteRest(m: Mesh, id: nat, ok: bool)
    requires BackoffOk(m) && AppliesRested(m) && IfacesOk(m) && id in m.streams
    ensures BackoffOk(Executed(m, id, ok)) && AppliesRested(Executed(m, id, ok)) && IfacesOk(Executed(m, id, ok))
  {
    var m' := Executed(m, id, ok);
    forall i, j | i in m'.streams && j in m'.streams ensures !SharedIface(m'.streams[i], m'.streams[j]) {
      assert !SharedIface(m.streams[i], m.streams[j]);
    }
  }

  // ── Settling an apply ────────────────────────────────────────────────────

  /** A settled apply confirms what was sent: the agent desires that cost. */
  lemma ConfirmPolicy(m: Mesh, id: nat)
    requires CostInv(m) && id in m.streams && m.streams[id].kind == Apply && m.streams[id].answer == Some(true)
    ensures PolicyInv(Replied(m, id))
  {
    hide SlotInv, AppliesOk, BackoffOk, AppliesRested, IfacesOk;
    var s, m' := m.streams[id], Replied(m, id);
    ConfirmEffect(m, id);
    hide Replied;
    ConfirmApplies(m, m', id);
    ConfirmRest(m, m', id);
    EndIfaces(m, m', id);
  }

  /** The end of an apply's stream: what remains, and what is now known of its link. */
  ghost predicate EndStep(m: Mesh, m': Mesh, id: nat) {
    && id in m.streams && m'.streams == m.streams - {id}
    && m'.now == m.now && m'.desired == m.desired && m'.workers.Keys == m.workers.Keys
    && var s := m.streams[id];
       && (forall a :: a in m.workers && a != s.agent ==> m'.workers[a] == m.workers[a])
       && (s.agent in m.workers ==>
             && m'.workers[s.agent].links == m.workers[s.agent].links
             && (forall l :: l != s.link ==>
                   && (l in m'.workers[s.agent].appliedSent <==> l in m.workers[s.agent].appliedSent)
                   && (l in m.workers[s.agent].appliedSent ==>
                         m'.workers[s.agent].appliedSent[l] == m.workers[s.agent].appliedSent[l])
                   && (l in m'.workers[s.agent].retryAt <==> l in m.workers[s.agent].retryAt)
                   && (l in m.workers[s.agent].retryAt ==>
                         m'.workers[s.agent].retryAt[l] == m.workers[s.agent].retryAt[l])))
  }

  ghost predicate ConfirmStep(m: Mesh, m': Mesh, id: nat) {
    && EndStep(m, m', id) && m'.failed == m.failed
    && var s := m.streams[id];
       (s.agent in m.workers ==>
          && s.link in m'.workers[s.agent].appliedSent && m'.workers[s.agent].appliedSent[s.link] == s.cost)
  }

  ghost predicate ForgetStep(m: Mesh, m': Mesh, id: nat) {
    && EndStep(m, m', id)
    && var s := m.streams[id];
       && m'.failed == m.failed[(s.agent, s.link) := m.now]
       && (s.agent in m.workers ==>
             && s.link !in m'.workers[s.agent].appliedSent
             && s.link in m'.workers[s.agent].retryAt
             && m'.workers[s.agent].retryAt[s.link] == m.now + APPLY_RETRY_SECS)
  }

  lemma ConfirmEffect(m: Mesh, id: nat)
    requires id in m.streams && m.streams[id].kind == Apply && m.streams[id].answer == Some(true)
    ensures ConfirmStep(m, Replied(m, id), id)
  {
  }

  lemma ForgetEffect(m: Mesh, id: nat)
    requires id in m.streams && m.streams[id].kind == Apply
    ensures ForgetStep(m, Failed(m, id), id)
    ensures m.streams[id].answer == Some(false) ==> ForgetStep(m, Replied(m, id), id)
  {
  }

  lemma EndIfaces(m: Mesh, m': Mesh, id: nat)
    requires CostInv(m) && EndStep(m, m', id) && m.streams[id].kind == Apply
    ensures IfacesOk(m')
  {
    hide AppliesOk, BackoffOk, AppliesRested;
    var s := m.streams[id];
    assert HoldsSlot(m, s);
    forall i, j | i in m'.streams && j in m'.streams ensures !SharedIface(m'.streams[i], m'.streams[j]) {
      assert !SharedIface(m.streams[i], m.streams[j]);
    }
  }

  lemma EndApplies(m: Mesh, m': Mesh, id: nat)
    requires CostInv(m) && EndStep(m, m', id) && m.streams[id].kind == Apply
    ensures forall i :: i in m'.streams ==> ApplyOk(m', m'.streams[i])
  {
    hide BackoffOk, AppliesRested, IfacesOk, Believed;
    forall i | i in m'.streams ensures ApplyOk(m', m'.streams[i]) {
      assert ApplyOk(m, m.streams[i]) && !SameSlot(m.streams[id], m.streams[i]);
    }
  }

  lemma EndBelieved(m: Mesh, m': Mesh, id: nat, agent: string, link: LinkKey, cost: nat)
    requires Believed(m, agent, link, cost) && EndStep(m, m', id) && !IsApply(m.streams[id], agent, link)
    ensures Believed(m', agent, link, cost)
  {
    if !Desires(m, agent, link, cost) {
      var i :| i in m.streams && IsApply(m.streams[i], agent, link) && m.streams[i].cost == cost;
      assert i in m'.streams;
    }
  }

  lemma ConfirmApplies(m: Mesh, m': Mesh, id: nat)
    requires CostInv(m) && ConfirmStep(m, m', id)
    requires m.streams[id].kind == Apply && m.streams[id].answer == Some(true)
    ensures AppliesOk(m')
  {
    hide SlotInv, BackoffOk, AppliesRested, IfacesOk;
    EndApplies(m, m', id);
    var s := m.streams[id];
    assert ApplyOk(m, s);
    hide ApplyOk;
    forall a, l | a in m'.workers && l in m'.workers[a].appliedSent
      ensures Believed(m', a, l, m'.workers[a].appliedSent[l])
    {
      if a == s.agent && l == s.link {
        assert Desires(m', a, l, s.cost) by { ConfirmDesires(m, m', id); }
      } else {
        EndBelieved(m, m', id, a, l, m.workers[a].appliedSent[l]);
      }
    }
  }

  lemma ConfirmDesires(m: Mesh, m': Mesh, id: nat)
    requires AppliesOk(m) && ConfirmStep(m, m', id)
    requires m.streams[id].kind == Apply && m.streams[id].answer == Some(true) && m.streams[id].agent in m.workers
    ensures Desires(m', m.streams[id].agent, m.streams[id].link, m.streams[id].cost)
  {
    assert ApplyOk(m, m.streams[id]);
  }

  lemma ConfirmRest(m: Mesh, m': Mesh, id: nat)
    requires BackoffOk(m) && AppliesRested(m) && ConfirmStep(m, m', id) && m.streams[id].kind == Apply
    ensures BackoffOk(m') && AppliesRested(m')
  {
    assert m.streams[id].agent in m.workers ==> Rested(m, m.streams[id].agent, m.streams[id].link);
  }

  /** A failed or refused apply is forgotten, and its link backs off. */
  lemma ForgetPolicy(m: Mesh, m': Mesh, id: nat)
    requires CostInv(m) && ForgetStep(m, m', id) && m.streams[id].kind == Apply
    ensures PolicyInv(m')
  {
    hide SlotInv, AppliesOk, BackoffOk, AppliesRested, IfacesOk;
    EndIfaces(m, m', id);
    ForgetApplies(m, m', id);
    ForgetRest(m, m', id);
  }

  lemma ForgetApplies(m: Mesh, m': Mesh, id: nat)
    requires CostInv(m) && ForgetStep(m, m', id) && m.streams[id].kind == Apply
    ensures AppliesOk(m')
  {
    hide SlotInv, BackoffOk, AppliesRested, IfacesOk, ApplyOk;
    EndApplies(m, m', id);
    forall a, l | a in m'.workers && l in m'.workers[a].appliedSent
      ensures Believed(m', a, l, m'.workers[a].appliedSent[l])
    {
      EndBelieved(m, m', id, a, l, m.workers[a].appliedSent[l]);
    }
  }

  lemma ForgetRest(m: Mesh, m': Mesh, id: nat)
    requires CostInv(m) && ForgetStep(m, m', id) && m.streams[id].kind == Apply
    ensures BackoffOk(m') && AppliesRested(m')
  {
    hide AppliesOk, IfacesOk;
    forall i | ApplyIn(m', i) && m'.streams[i].agent in m'.workers
      ensures Rested(m', m'.streams[i].agent, m'.streams[i].link)
    {
      assert !SameSlot(m.streams[id], m.streams[i]);
    }
  }

  lemma EndPolicy(m: Mesh, id: nat)
    requires CostInv(m) && id in m.streams
    ensures PolicyInv(Failed(m, id))
    ensures m.streams[id].answer.Some? ==> PolicyInv(Replied(m, id))
  {
    hide CostInv, PolicyInv, ForgetStep, Failed, Replied;
    assert CostInv(m) ==> PolicyInv(m) by { CostIsPolicy(m); }
    if m.streams[id].kind != Apply {
      OtherEndPolicy(m, id);
      PolicyStays(m, Failed(m, id));
      if m.streams[id].answer.Some? {
        PolicyStays(m, Replied(m, id));
      }
    } else {
      ForgetEffect(m, id);
      ForgetPolicy(m, Failed(m, id), id);
      match m.streams[id].answer {
        case None =>
        case Some(ok) =>
          if ok {
            ConfirmPolicy(m, id);
          } else {
            ForgetPolicy(m, Replied(m, id), id);
          }
      }
    }
  }

  lemma CostIsPolicy(m: Mesh)
    requires CostInv(m)
    ensures PolicyInv(m)
  {
  }

  // ── Every run in order ───────────────────────────────────────────────────

  ghost predicate DistinctReport(a: Action) { a.Register? ==> DistinctIfaces(a.reported) }

  /** Every step keeps what the controller believes of costs, if it is no registration
      out of order for applies. */
  lemma StepKeepsCosts(m: Mesh, a: Action)
    requires CostInv(m) && OrderlyStep(m, a, Apply) && DistinctReport(a)
    ensures CostInv(After(m, a))
  {
    StepKeepsSlots(m, a, Apply);
    assert StreamsNumbered(m);
    hide SlotInv, PolicyInv, InOrder, PlannedPing, PlannedTest, PlannedCost, RegisteredAgent, Executed, Replied, Failed;
    match a
    case Tick(now) =>
      if m.now <= now {
        TickPolicy(m, now);
      }
    case Register(agent, anew, reported, costs) =>
      RegisterPolicy(m, agent, anew, reported, costs);
    case Detach(agent, generation) =>
      DetachPolicy(m, agent);
    case PlanPing(agent, link) =>
      PingPolicy(m, agent, link);
    case PlanTest(agent, link) =>
      TestPolicy(m, agent, link);
    case PlanCost(agent, link, cost) =>
      if agent in m.workers && link in m.workers[agent].links {
        PlannedCostPolicy(m, agent, link, cost);
      }
    case Execute(id, ok) =>
      if id in m.streams {
        ExecutePolicy(m, id, ok);
      }
    case Reply(id) =>
      if id in m.streams {
        EndPolicy(m, id);
      }
    case Fail(id) =>
      if id in m.streams {
        EndPolicy(m, id);
      }
  }

  lemma TickPolicy(m: Mesh, now: nat)
    requires PolicyInv(m) && m.now <= now
    ensures PolicyInv(m.(now := now))
  {
    hide PolicyInv;
    PolicyStays(m, m.(now := now));
  }

  lemma {:induction false} RunKeepsCosts(actions: seq<Action>)
    requires Orderly(actions, Apply) && DistinctReports(actions)
    ensures CostInv(Run(actions))
    decreases |actions|
  {
    hide CostInv, After, OrderlyStep;
    if actions == [] {
      StartCosts();
    } else {
      var front := actions[..|actions| - 1];
      assert forall i :: 0 <= i < |front| ==> front[i] == actions[i];
      RunKeepsCosts(front);
      assert DistinctReport(actions[|actions| - 1]);
      StepKeepsCosts(Run(front), actions[|actions| - 1]);
    }
  }

  lemma StartCosts()
    ensures CostInv(START)
  {
  }

  /** Whether, with no apply outstanding on a link, the cost the controller believes
      applied is always the one the agent wants. */
  ghost predicate Settled(m: Mesh) {
    forall a, l :: a in m.workers && l in m.workers[a].appliedSent
                && (forall id :: id in m.streams ==> !IsApply(m.streams[id], a, l))
      ==> Desires(m, a, l, m.workers[a].appliedSent[l])
  }

  lemma AppliedMeansDesired(actions: seq<Action>)
    requires Orderly(actions, Apply) && DistinctReports(actions)
    ensures Settled(Run(actions))
  {
    RunKeepsCosts(actions);
    hide Run, SlotInv;
    var m := Run(actions);
    forall a, l | a in m.workers && l in m.workers[a].appliedSent
        && (forall id :: id in m.streams ==> !IsApply(m.streams[id], a, l))
      ensures Desires(m, a, l, m.workers[a].appliedSent[l])
    {
      assert Believed(m, a, l, m.workers[a].appliedSent[l]);
    }
  }

  /** Whether no apply is planned for a link that failed one less than the back-off
      ago, unless its agent registered since. */
  ghost predicate Patient(m: Mesh) {
    forall a, l, cost: nat :: (a, l) in m.failed && m.now < m.failed[(a, l)] + 30
      ==> PlannedCost(m, a, l, cost) == m
  }

  lemma NoRetryBeforeBackoff(actions: seq<Action>)
    requires Orderly(actions, Apply) && DistinctReports(actions)
    ensures Patient(Run(actions))
  {
    RunKeepsCosts(actions);
    hide Run, SlotInv, AppliesOk, AppliesRested, IfacesOk, SentCost;
    assert BackoffOk(Run(actions));
  }

}
