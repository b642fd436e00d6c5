/** The controller's side in place: the scheduler tick, dispatch and the handling of
    answers (crates/controller/src/scheduler.rs, crates/controller/src/session.rs). */
module Session {
  import opened Core
  import opened Fence
  import opened Worker
  import opened Dispatch
  import Quality
  import Kv

  datatype Cadence = Cadence(always: nat, throughput: nat, goodTcp: Option<real>)

  predicate AtLeast(v: Option<real>, good: real) { v.Some? ==> v.value >= good }

  /** `passive_proof`: recent real traffic carried the good class's rate, and nothing
      still scored says otherwise. */
  predicate PassiveProof(good: Option<real>, rec: Option<Kv.Verdict>) {
    && good.Some? && rec.Some?
    && var view := rec.value.view;
       && Quality.PassiveRate in view.metrics && view.metrics[Quality.PassiveRate] >= good.value
       && AtLeast(Quality.Get(view, Quality.ImpliedMbps), good.value)
       && AtLeast(Quality.Get(view, Quality.TcpMbps), good.value)
  }

  /** No class asks for a higher TCP rate than the good one. */
  predicate GoodAsksMost(cfg: Quality.Classes) {
    var limits := Quality.Limits(cfg, Quality.TcpMbps);
    forall i :: 0 <= i < 4 && limits[i].Some? ==> limits[0].Some? && limits[i].value <= limits[0].value
  }

  predicate ScoresGood(cfg: Quality.Classes, view: Quality.View) {
    Quality.MetricScore(cfg, view, Quality.TcpMbps) == 0 && Quality.MetricScore(cfg, view, Quality.ImpliedMbps) == 0
  }

  predicate BelowGood(cfg: Quality.Classes, view: Quality.View, m: Quality.Metric) {
    m in view.metrics && Quality.Crosses(true, view.metrics[m], Quality.Limit(cfg.good, m))
  }

  /** Whether a proof always means what the classifier would say: neither the carried
      rate nor the implied one demotes the link. */
  ghost predicate ProofsMeanGood(cfg: Quality.Classes) {
    forall rec: Kv.Verdict ::
      PassiveProof(Quality.Limit(cfg.good, Quality.TcpMbps), Some(rec)) ==> ScoresGood(cfg, rec.view)
  }

  /** It does exactly when no class asks for a higher TCP rate than the good one; in any
      case neither rate is below the good class's. */
  lemma PassiveProofMeansGood(cfg: Quality.Classes)
    requires Quality.Limit(cfg.good, Quality.TcpMbps).Some?
    ensures ProofsMeanGood(cfg) <==> GoodAsksMost(cfg)
    ensures forall rec: Kv.Verdict :: PassiveProof(Quality.Limit(cfg.good, Quality.TcpMbps), Some(rec)) ==>
              !BelowGood(cfg, rec.view, Quality.TcpMbps) && !BelowGood(cfg, rec.view, Quality.ImpliedMbps)
  {
    Quality.SameLimits(cfg);
    if GoodAsksMost(cfg) {
      forall rec: Kv.Verdict | PassiveProof(Quality.Limit(cfg.good, Quality.TcpMbps), Some(rec))
        ensures ScoresGood(cfg, rec.view)
      {
        ProofScoresGood(cfg, rec);
      }
    } else {
      BarelyProved(cfg);
    }
  }

  lemma ProofScoresGood(cfg: Quality.Classes, rec: Kv.Verdict)
    requires GoodAsksMost(cfg) && PassiveProof(Quality.Limit(cfg.good, Quality.TcpMbps), Some(rec))
    ensures ScoresGood(cfg, rec.view)
  {
    hide Quality.Score, Quality.Limit;
    Quality.SameLimits(cfg);
  }

  /** A link that carries, and was tested at, just the good class's rate. */
  lemma BarelyProved(cfg: Quality.Classes)
    requires !GoodAsksMost(cfg) && Quality.Limit(cfg.good, Quality.TcpMbps).Some?
    ensures !ProofsMeanGood(cfg)
  {
    hide Quality.Score, Quality.Limit;
    var good := Quality.Limit(cfg.good, Quality.TcpMbps);
    var view := Quality.View(0, 0, 0.0, map[Quality.PassiveRate := good.value, Quality.TcpMbps := good.value]);
    var rec := Kv.Verdict(view, None, None);
    assert PassiveProof(good, Some(rec));
    var limits := Quality.Limits(cfg, Quality.TcpMbps);
    var i :| 0 <= i < 4 && limits[i].Some? && !(limits[i].value <= limits[0].value);
    assert Quality.Crosses(true, good.value, limits[i]);
    assert !ScoresGood(cfg, view);
  }

  function CostLeg(m: Mesh, rec: Option<Kv.Verdict>, agent: string, link: LinkKey): Mesh {
    if rec.Some? && rec.value.cost.Some? then PlannedCost(m, agent, link, rec.value.cost.value) else m
  }

  /** The always leg of `plan_tick`. */
  function PingLeg(m: Mesh, cad: Cadence, agent: string, link: LinkKey): Mesh {
    if ProbeIsDue(m.workers, agent, link, Always, m.now, Max(cad.always, 1)) then PlannedPing(m, agent, link) else m
  }

  /** The throughput and policy legs. A passive proof skips the rest of the link for
      this tick, its cost included. */
  function TestAndCostLegs(m: Mesh, cad: Cadence, rec: Option<Kv.Verdict>, agent: string, link: LinkKey): Mesh {
    if !ProbeIsDue(m.workers, agent, link, Throughput, m.now, Max(cad.throughput, 1)) then CostLeg(m, rec, agent, link)
    else if PassiveProof(cad.goodTcp, rec) then m.(workers := Issued(m.workers, agent, link, Throughput, m.now))
    else CostLeg(PlannedTest(m, agent, link), rec, agent, link)
  }

  /** One link's share of `plan_tick`. */
  function PlannedLink(m: Mesh, cad: Cadence, rec: Option<Kv.Verdict>, agent: string, link: LinkKey): Mesh {
    TestAndCostLegs(PingLeg(m, cad, agent, link), cad, rec, agent, link)
  }

  /** The key-value store's `get`. */
  function Find(records: Kv.Records, link: LinkKey): Option<Kv.Verdict> {
    if link in records then Some(records[link].body) else None
  }

  function PlannedLinks(m: Mesh, cad: Cadence, records: Kv.Records, owned: seq<(string, LinkKey)>): Mesh
    decreases |owned|
  {
    if owned == [] then m
    else
      var (agent, link) := owned[|owned| - 1];
      PlannedLink(PlannedLinks(m, cad, records, owned[..|owned| - 1]), cad, Find(records, link), agent, link)
  }

  // ── A tick keeps the protocol ────────────────────────────────────────────

  /** The invariants of the leases, of each kind of command and of the costs. */
  ghost predicate Good(m: Mesh) { LeaseInv(m) && CostInv(m) && forall kind :: SlotInv(m, kind) }

  /** Agents and their links are as they were. */
  predicate SameAgents(m: Mesh, m': Mesh) {
    && m.workers.Keys == m'.workers.Keys
    && forall a :: a in m.workers ==> m.workers[a].links == m'.workers[a].links
  }

  predicate Owns(m: Mesh, agent: string, link: LinkKey) { agent in m.workers && link in m.workers[agent].links }

  lemma StepKeepsGood(m: Mesh, a: Action)
    requires Good(m) && !a.Register?
    ensures Good(After(m, a))
  {
    hide LeaseInv, CostInv, SlotInv, After;
    StepKeepsLeases(m, a);
    StepKeepsCosts(m, a);
    forall kind ensures SlotInv(After(m, a), kind) {
      StepKeepsSlots(m, a, kind);
    }
  }

  lemma DispatchKeepsAgents(m: Mesh, agent: string, link: LinkKey, kind: Kind, token: nat, cost: nat)
    ensures SameAgents(m, Dispatched(m, agent, link, kind, token, cost))
    ensures Dispatched(m, agent, link, kind, token, cost).now == m.now
  {
  }

  lemma IssueKeepsAgents(m: Mesh, agent: string, link: LinkKey, kind: Kind, now: nat)
    ensures SameAgents(m, m.(workers := Issued(m.workers, agent, link, kind, now)))
  {
  }

  lemma PingKeepsGood(m: Mesh, agent: string, link: LinkKey)
    requires Good(m) && Owns(m, agent, link)
    ensures Good(PlannedPing(m, agent, link)) && SameAgents(m, PlannedPing(m, agent, link))
    ensures PlannedPing(m, agent, link).now == m.now
  {
    hide Good, Dispatched, Issued, CanDispatch;
    DispatchKeepsAgents(m, agent, link, Always, 0, 0);
    IssueKeepsAgents(Dispatched(m, agent, link, Always, 0, 0), agent, link, Always, m.now);
    StepKeepsGood(m, PlanPing(agent, link));
  }

  lemma TestKeepsGood(m: Mesh, agent: string, link: LinkKey)
    requires Good(m) && Owns(m, agent, link)
    ensures Good(PlannedTest(m, agent, link)) && SameAgents(m, PlannedTest(m, agent, link))
  {
    hide Good, PlannedTest;
    TestKeepsAgents(m, agent, link);
    StepKeepsGood(m, PlanTest(agent, link));
  }

  lemma TestKeepsAgents(m: Mesh, agent: string, link: LinkKey)
    ensures SameAgents(m, PlannedTest(m, agent, link))
  {
    hide Acquired, Released, Blocked, Live, Dispatched, Issued, CanDispatch;
    var acquired := m.(next := m.next + 1,
                       leases := Acquired(m.leases, agent, link, FENCE_TTL_SECS, m.now, m.next));
    DispatchKeepsAgents(acquired, agent, link, Throughput, m.next, 0);
    IssueKeepsAgents(Dispatched(acquired, agent, link, Throughput, m.next, 0), agent, link, Throughput, m.now);
  }

  lemma CostLegKeepsGood(m: Mesh, rec: Option<Kv.Verdict>, agent: string, link: LinkKey)
    requires Good(m) && Owns(m, agent, link)
    ensures Good(CostLeg(m, rec, agent, link)) && SameAgents(m, CostLeg(m, rec, agent, link))
  {
    hide Good, PlannedCost;
    if rec.Some? && rec.value.cost.Some? {
      StepKeepsGood(m, PlanCost(agent, link, rec.value.cost.value));
      CostKeepsAgents(m, agent, link, rec.value.cost.value);
    }
  }

  lemma CostKeepsAgents(m: Mesh, agent: string, link: LinkKey, cost: nat)
    ensures SameAgents(m, PlannedCost(m, agent, link, cost))
  {
  }

  lemma IssueKeepsGood(m: Mesh, agent: string, link: LinkKey)
    requires Good(m)
    ensures Good(m.(workers := Issued(m.workers, agent, link, Throughput, m.now)))
  {
    hide LeasesOk, SlotInv, PolicyInv, SamePolicy;
    var m' := m.(workers := Issued(m.workers, agent, link, Throughput, m.now));
    LeasesStay(m, m');
    IssuePolicy(m, agent, link, Throughput, m.now);
    PolicyStays(m, m');
    forall kind ensures SlotInv(m', kind) {
      SlotsStay(m, m', kind);
    }
  }

  lemma LegsKeepGood(m: Mesh, cad: Cadence, rec: Option<Kv.Verdict>, agent: string, link: LinkKey)
    requires Good(m) && Owns(m, agent, link)
    ensures Good(TestAndCostLegs(m, cad, rec, agent, link))
    ensures SameAgents(m, TestAndCostLegs(m, cad, rec, agent, link))
  {
    hide Good, PlannedTest, Issued, ProbeIsDue, PassiveProof, CostLeg;
    if !ProbeIsDue(m.workers, agent, link, Throughput, m.now, Max(cad.throughput, 1)) {
      CostLegKeepsGood(m, rec, agent, link);
    } else if PassiveProof(cad.goodTcp, rec) {
      IssueKeepsGood(m, agent, link);
      IssueKeepsAgents(m, agent, link, Throughput, m.now);
    } else {
      TestKeepsGood(m, agent, link);
      CostLegKeepsGood(PlannedTest(m, agent, link), rec, agent, link);
    }
  }

  lemma LinkKeepsGood(m: Mesh, cad: Cadence, rec: Option<Kv.Verdict>, agent: string, link: LinkKey)
    requires Good(m) && Owns(m, agent, link)
    ensures Good(PlannedLink(m, cad, rec, agent, link))
    ensures SameAgents(m, PlannedLink(m, cad, rec, agent, link))
  {
    hide Good, PlannedPing, TestAndCostLegs, ProbeIsDue;
    PingKeepsGood(m, agent, link);
    LegsKeepGood(PingLeg(m, cad, agent, link), cad, rec, agent, link);
  }

  lemma {:induction false} TickKeepsGood(m: Mesh, cad: Cadence, records: Kv.Records, owned: seq<(string, LinkKey)>)
    requires Good(m) && forall x :: x in owned ==> Owns(m, x.0, x.1)
    ensures Good(PlannedLinks(m, cad, records, owned))
    ensures SameAgents(m, PlannedLinks(m, cad, records, owned))
    decreases |owned|
  {
    hide Good, PlannedLink;
    if owned != [] {
      var front := owned[..|owned| - 1];
      var (agent, link) := owned[|owned| - 1];
      TickKeepsGood(m, cad, records, front);
      var before := PlannedLinks(m, cad, records, front);
      assert (agent, link) in owned;
      LinkKeepsGood(before, cad, Find(records, link), agent, link);
    }
  }

  // ── In place ─────────────────────────────────────────────────────────────

  class Controller {
    const fence: Fence
    const workers: WorkerRegistry
    var streams: map<nat, Stream>
    var next: nat
    var now: nat
    /** What the agents want and what failed, for the specification only. */
    ghost var desired: map<(string, string), nat>
    ghost var failed: map<(string, LinkKey), nat>

    ghost function State(): Mesh
      reads this, fence, workers
    {
      Mesh(now, next, workers.inner, fence.leases, streams, desired, failed)
    }

    constructor (fence: Fence, workers: WorkerRegistry)
      requires fence.leases == map[] && workers.inner == map[]
      ensures State() == START
      ensures this.fence == fence && this.workers == workers
    {
      this.fence, this.workers := fence, workers;
      streams, next, now := map[], 0, 0;
      desired, failed := map[], map[];
    }

    /** `dispatch`: false without a session or while the slot is taken. */
    method Dispatch(agent: string, link: LinkKey, kind: Kind, token: nat, cost: nat) returns (sent: bool)
      modifies this`streams, this`next, workers`inner
      ensures sent == CanDispatch(old(State()), agent, link, kind)
      ensures State() == Dispatched(old(State()), agent, link, kind, token, cost)
    {
      if agent !in workers.inner || workers.inner[agent].session.None? {
        return false;
      }
      ghost var before := workers.inner;
      var claimed := workers.Begin(agent, link, kind);
      if !claimed {
        assert before[agent].inFlight + {(link, kind)} == before[agent].inFlight;
        assert workers.inner == before;
        return false;
      }
      streams := streams[next := Stream(agent, link, kind, token, cost, None)];
      next := next + 1;
      return true;
    }

    method PlanPingLeg(agent: string, link: LinkKey)
      modifies this`streams, this`next, workers`inner
      ensures State() == PlannedPing(old(State()), agent, link)
    {
      var sent := Dispatch(agent, link, Always, 0, 0);
      if sent {
        workers.MarkIssued(agent, link, Always, now);
      }
    }

    /** The throughput leg: lease first, then dispatch; a refused dispatch gives the
        lease back. */
    method PlanTestLeg(agent: string, link: LinkKey)
      modifies this`streams, this`next, workers`inner, fence
      ensures State() == PlannedTest(old(State()), agent, link)
    {
      var token := next;
      next := next + 1;
      var grant := fence.Acquire(agent, link, FENCE_TTL_SECS, now, token);
      if grant.Granted? {
        var sent := Dispatch(agent, link, Throughput, token, 0);
        if sent {
          workers.MarkIssued(agent, link, Throughput, now);
        } else {
          var _ := fence.Release(link, token);
        }
      }
    }

    method SendCost(agent: string, link: LinkKey, cost: nat)
      modifies this`streams, this`next, workers`inner
      ensures State() == SentCost(old(State()), agent, link, cost)
    {
      var sent := Dispatch(agent, link, Apply, 0, cost);
      if sent {
        workers.SetAppliedSent(agent, link, cost);
      }
    }

    method PlanCostLeg(rec: Option<Kv.Verdict>, agent: string, link: LinkKey)
      modifies this`streams, this`next, workers`inner
      ensures State() == CostLeg(old(State()), rec, agent, link)
    {
      if rec.Some? && rec.value.cost.Some? && ApplyIsDue(workers.inner, agent, link, rec.value.cost.value, now) {
        SendCost(agent, link, rec.value.cost.value);
      }
    }

    /** The loop body of `plan_tick`. */
    method PlanOne(cad: Cadence, rec: Option<Kv.Verdict>, agent: string, link: LinkKey)
      modifies this`streams, this`next, workers`inner, fence
      ensures State() == PlannedLink(old(State()), cad, rec, agent, link)
    {
      hide PlannedPing, PlannedTest, CostLeg, PassiveProof;
      if ProbeIsDue(workers.inner, agent, link, Always, now, Max(cad.always, 1)) {
        PlanPingLeg(agent, link);
      }
      if ProbeIsDue(workers.inner, agent, link, Throughput, now, Max(cad.throughput, 1)) {
        if PassiveProof(cad.goodTcp, rec) {
          workers.MarkIssued(agent, link, Throughput, now);
          return;
        }
        PlanTestLeg(agent, link);
      }
      PlanCostLeg(rec, agent, link);
    }

    /** `plan_tick` over the links owned when it starts. */
    method PlanTick(cad: Cadence, records: Kv.Records, owned: seq<(string, LinkKey)>)
      modifies this`streams, this`next, workers`inner, fence
      ensures State() == PlannedLinks(old(State()), cad, records, owned)
    {
      hide PlannedLink;
      for i := 0 to |owned|
        invariant State() == PlannedLinks(old(State()), cad, records, owned[..i])
      {
        var (agent, link) := owned[i];
        PlanOne(cad, Find(records, link), agent, link);
        assert owned[..i + 1][..i] == owned[..i];
      }
      assert owned[..|owned|] == owned;
    }

    /** `handle_reply`, then the slot. */
    method HandleReply(id: nat)
      requires id in streams && streams[id].answer.Some?
      modifies this`streams, this`failed, workers`inner, fence
      ensures State() == Replied(old(State()), id)
    {
      var s := streams[id];
      match s.kind {
        case Always =>
        case Throughput =>
          var _ := fence.Release(s.link, s.token);
        case Apply =>
          if s.answer.value {
            workers.SetAppliedSent(s.agent, s.link, s.cost);
          } else {
            workers.NoteApplyFailed(s.agent, s.link, now);
            failed := failed[(s.agent, s.link) := now];
          }
      }
      streams := streams - {id};
      workers.End(s.agent, s.link, s.kind);
    }

    /** `on_failure`, then the slot. */
    method OnFailure(id: nat)
      requires id in streams
      modifies this`streams, this`failed, workers`inner, fence
      ensures State() == Failed(old(State()), id)
    {
      var s := streams[id];
      match s.kind {
        case Always =>
        case Throughput =>
          var _ := fence.Release(s.link, s.token);
        case Apply =>
          workers.NoteApplyFailed(s.agent, s.link, now);
          failed := failed[(s.agent, s.link) := now];
      }
      streams := streams - {id};
      workers.End(s.agent, s.link, s.kind);
    }
  }
}
