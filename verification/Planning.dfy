/** What one tick of the scheduler sends, and when (crates/controller/src/scheduler.rs,
    `plan_tick`), said of the registry, the leases and the live records alone. */
module Planning {
  import opened Core
  import opened Fence
  import opened Worker
  import opened Dispatch
  import opened Session
  import Classifier
  import Kv
  import Quality

  // ── When a command goes out ──────────────────────────────────────────────

  /** Never issued, or at least the interval ago. */
  predicate Elapsed(w: Worker, link: LinkKey, kind: Kind, now: nat, interval: nat) {
    (link, kind) in w.lastIssue ==> now >= w.lastIssue[(link, kind)] + interval
  }

  predicate Running(lease: Lease, now: nat) { lease.ttl > 0 && now < lease.issuedAt + lease.ttl }

  /** No lease still running occupies either end of the link. */
  predicate NodesFree(leases: Leases, link: LinkKey, now: nat) {
    forall k :: k in leases && Running(leases[k], now) ==>
      && leases[k].link.from != link.from && leases[k].link.from != link.to
      && leases[k].link.to != link.from && leases[k].link.to != link.to
  }

  /** The link recently carried the good class's rate, and neither its implied rate nor
      a test result still carried is below. */
  predicate Proved(good: Option<real>, rec: Option<Kv.Verdict>) {
    && good.Some? && rec.Some?
    && var metrics := rec.value.view.metrics;
       && Quality.PassiveRate in metrics && metrics[Quality.PassiveRate] >= good.value
       && (Quality.ImpliedMbps in metrics ==> metrics[Quality.ImpliedMbps] >= good.value)
       && (Quality.TcpMbps in metrics ==> metrics[Quality.TcpMbps] >= good.value)
  }

  /** The link's turn ends with its test found unnecessary. */
  predicate Spared(m: Mesh, cad: Cadence, rec: Option<Kv.Verdict>, agent: string, link: LinkKey)
    requires agent in m.workers
  {
    Elapsed(m.workers[agent], link, Throughput, m.now, Max(cad.throughput, 1)) && Proved(cad.goodTcp, rec)
  }

  /** Whether the link's turn sends a command of the kind. */
  predicate Goes(m: Mesh, cad: Cadence, rec: Option<Kv.Verdict>, agent: string, link: LinkKey, kind: Kind) {
    && agent in m.workers
    && var w := m.workers[agent];
       && w.session.Some? && (link, kind) !in w.inFlight
       && match kind
          case Always => Elapsed(w, link, Always, m.now, Max(cad.always, 1))
          case Throughput =>
            && Elapsed(w, link, Throughput, m.now, Max(cad.throughput, 1))
            && !Proved(cad.goodTcp, rec) && NodesFree(m.leases, link, m.now)
          case Apply =>
            && rec.Some? && rec.value.cost.Some? && !Spared(m, cad, rec, agent, link)
            && (link in w.appliedSent ==> w.appliedSent[link] != rec.value.cost.value)
            && (link in w.retryAt ==> w.retryAt[link] <= m.now)
  }

  // ── What a turn does to a link ───────────────────────────────────────────

  predicate IsNew(m: Mesh, m': Mesh, id: nat, agent: string, link: LinkKey, kind: Kind) {
    && id in m'.streams && id !in m.streams
    && m'.streams[id].agent == agent && m'.streams[id].link == link && m'.streams[id].kind == kind
  }

  ghost predicate GoesOut(m: Mesh, m': Mesh, agent: string, link: LinkKey, kind: Kind) {
    exists id :: IsNew(m, m', id, agent, link, kind)
  }

  function IssueTime(m: Mesh, agent: string, link: LinkKey, kind: Kind): Option<nat> {
    if agent in m.workers && (link, kind) in m.workers[agent].lastIssue
    then Some(m.workers[agent].lastIssue[(link, kind)]) else None
  }

  /** The cost believed sent and the back-off. */
  predicate SameCosts(w: Worker, w': Worker, link: LinkKey) {
    && (link in w.appliedSent <==> link in w'.appliedSent)
    && (link in w.appliedSent ==> w.appliedSent[link] == w'.appliedSent[link])
    && (link in w.retryAt <==> link in w'.retryAt)
    && (link in w.retryAt ==> w.retryAt[link] == w'.retryAt[link])
  }

  ghost predicate Sound(m: Mesh) { StreamsNumbered(m) && NodeDisjoint(m.leases) }

  predicate KeepsLease(leases: Leases, leases': Leases, link: LinkKey, now: nat) {
    link in leases && Running(leases[link], now) ==> link in leases' && leases'[link] == leases[link]
  }

  /** Nothing of the link's concerns changed for commands of the kind. */
  ghost predicate Leaves(m: Mesh, m': Mesh, agent: string, link: LinkKey, kind: Kind) {
    && m'.now == m.now && m.next <= m'.next && Sound(m')
    && (forall id :: id in m.streams ==> id in m'.streams && m'.streams[id] == m.streams[id])
    && !GoesOut(m, m', agent, link, kind)
    && KeepsLease(m.leases, m'.leases, link, m.now)
    && (agent in m.workers <==> agent in m'.workers)
    && IssueTime(m', agent, link, kind) == IssueTime(m, agent, link, kind)
    && (agent in m.workers ==>
          var w, w' := m.workers[agent], m'.workers[agent];
          && w'.session == w.session && ((link, kind) in w'.inFlight <==> (link, kind) in w.inFlight)
          && (kind == Apply ==> SameCosts(w, w', link)))
  }

  lemma LeavesTrans(a: Mesh, b: Mesh, c: Mesh, agent: string, link: LinkKey, kind: Kind)
    requires Leaves(a, b, agent, link, kind) && Leaves(b, c, agent, link, kind)
    ensures Leaves(a, c, agent, link, kind)
  {
    forall id ensures !IsNew(a, c, id, agent, link, kind) {
      assert !IsNew(a, b, id, agent, link, kind) && !IsNew(b, c, id, agent, link, kind);
    }
  }

  lemma DispatchLeaves(m: Mesh, a: string, l: LinkKey, k: Kind, token: nat, cost: nat,
                       agent: string, link: LinkKey, kind: Kind)
    requires Sound(m) && (a, l, k) != (agent, link, kind)
    ensures Leaves(m, Dispatched(m, a, l, k, token, cost), agent, link, kind)
  {
    hide NodeDisjoint, Dispatched, CanDispatch, Begun, StreamsStay;
    var m' := Dispatched(m, a, l, k, token, cost);
    DispatchChanges(m, a, l, k, token, cost);
    BegunLeaves(m.workers, a, l, k, agent, link, kind);
    if CanDispatch(m, a, l, k) {
      assert forall id :: !IsNew(m, m', id, agent, link, kind);
    }
  }

  lemma BegunLeaves(r: Registry, a: string, l: LinkKey, k: Kind, agent: string, link: LinkKey, kind: Kind)
    requires (a, l, k) != (agent, link, kind)
    ensures agent in r ==>
              var w, w' := r[agent], Begun(r, a, l, k)[agent];
              w' == w.(inFlight := w'.inFlight) && ((link, kind) in w'.inFlight <==> (link, kind) in w.inFlight)
  {
  }

  lemma IssueLeaves(m: Mesh, a: string, l: LinkKey, k: Kind, agent: string, link: LinkKey, kind: Kind)
    requires Sound(m) && (a, l, k) != (agent, link, kind)
    ensures Leaves(m, m.(workers := Issued(m.workers, a, l, k, m.now)), agent, link, kind)
  {
  }

  lemma BelieveLeaves(m: Mesh, a: string, l: LinkKey, cost: nat, agent: string, link: LinkKey, kind: Kind)
    requires Sound(m) && (a, l, Apply) != (agent, link, kind)
    ensures Leaves(m, m.(workers := AppliedSent(m.workers, a, l, cost)), agent, link, kind)
  {
  }

  lemma LeasesLeave(m: Mesh, next: nat, leases: Leases, agent: string, link: LinkKey, kind: Kind)
    requires Sound(m) && m.next <= next && NodeDisjoint(leases) && KeepsLease(m.leases, leases, link, m.now)
    ensures Leaves(m, m.(next := next, leases := leases), agent, link, kind)
  {
  }

  lemma PingLeaves(m: Mesh, a: string, l: LinkKey, agent: string, link: LinkKey, kind: Kind)
    requires Sound(m) && (a, l, Always) != (agent, link, kind)
    ensures Leaves(m, PlannedPing(m, a, l), agent, link, kind)
  {
    hide Leaves, Dispatched, CanDispatch, Issued;
    var sent := Dispatched(m, a, l, Always, 0, 0);
    DispatchLeaves(m, a, l, Always, 0, 0, agent, link, kind);
    assert Sound(sent) && sent.now == m.now by { LeavesKeeps(m, sent, agent, link, kind); }
    IssueLeaves(sent, a, l, Always, agent, link, kind);
    LeavesTrans(m, sent, sent.(workers := Issued(sent.workers, a, l, Always, m.now)), agent, link, kind);
  }

  lemma LeavesKeeps(m: Mesh, m': Mesh, agent: string, link: LinkKey, kind: Kind)
    requires Leaves(m, m', agent, link, kind)
    ensures Sound(m') && m'.now == m.now
  {
  }

  lemma TestLeaves(m: Mesh, a: string, l: LinkKey, agent: string, link: LinkKey, kind: Kind)
    requires Sound(m) && (a, l, Throughput) != (agent, link, kind)
    ensures Leaves(m, PlannedTest(m, a, l), agent, link, kind)
  {
    if Blocked(Live(m.leases, m.now), l) {
      BlockedLeaves(m, a, l, agent, link, kind);
    } else {
      GrantLeaves(m, a, l, agent, link, kind);
    }
  }

  lemma BlockedLeaves(m: Mesh, a: string, l: LinkKey, agent: string, link: LinkKey, kind: Kind)
    requires Sound(m) && Blocked(Live(m.leases, m.now), l)
    ensures Leaves(m, PlannedTest(m, a, l), agent, link, kind)
  {
    LeasesLeave(m, m.next + 1, Live(m.leases, m.now), agent, link, kind);
  }

  /** A grant, even one given back, leaves every running lease alone. */
  lemma GrantKeepsLeases(leases: Leases, a: string, l: LinkKey, token: nat, link: LinkKey, now: nat)
    requires NodeDisjoint(leases) && !Blocked(Live(leases, now), l)
    ensures var granted := Acquired(leases, a, l, FENCE_TTL_SECS, now, token);
            && NodeDisjoint(granted) && NodeDisjoint(Released(granted, l, token))
            && KeepsLease(leases, granted, link, now)
            && KeepsLease(leases, Released(granted, l, token), link, now)
  {
    AcquireKeepsDisjoint(leases, a, l, FENCE_TTL_SECS, now, token);
    if link in leases && Running(leases[link], now) {
      assert link in Live(leases, now);
      assert leases[link].Occupies(link);
    }
  }

  lemma GrantLeaves(m: Mesh, a: string, l: LinkKey, agent: string, link: LinkKey, kind: Kind)
    requires Sound(m) && (a, l, Throughput) != (agent, link, kind) && !Blocked(Live(m.leases, m.now), l)
    ensures Leaves(m, PlannedTest(m, a, l), agent, link, kind)
  {
    hide Leaves, Dispatched, CanDispatch, Issued, Acquired, Released, Blocked, Live;
    var leases := Acquired(m.leases, a, l, FENCE_TTL_SECS, m.now, m.next);
    var acquired := m.(next := m.next + 1, leases := leases);
    GrantKeepsLeases(m.leases, a, l, m.next, link, m.now);
    LeasesLeave(m, m.next + 1, leases, agent, link, kind);
    assert Sound(acquired) && acquired.now == m.now by { LeavesKeeps(m, acquired, agent, link, kind); }
    LeasesLeave(m, m.next + 1, Released(leases, l, m.next), agent, link, kind);
    var sent := Dispatched(acquired, a, l, Throughput, m.next, 0);
    DispatchLeaves(acquired, a, l, Throughput, m.next, 0, agent, link, kind);
    assert Sound(sent) && sent.now == m.now by { LeavesKeeps(acquired, sent, agent, link, kind); }
    LeavesTrans(m, acquired, sent, agent, link, kind);
    IssueLeaves(sent, a, l, Throughput, agent, link, kind);
    LeavesTrans(m, sent, sent.(workers := Issued(sent.workers, a, l, Throughput, m.now)), agent, link, kind);
  }

  lemma CostLeaves(m: Mesh, a: string, l: LinkKey, cost: nat, agent: string, link: LinkKey, kind: Kind)
    requires Sound(m) && (a, l, Apply) != (agent, link, kind)
    ensures Leaves(m, PlannedCost(m, a, l, cost), agent, link, kind)
  {
    hide Leaves, Dispatched, CanDispatch, AppliedSent, ApplyIsDue;
    Untouched(m, agent, link, kind);
    var sent := Dispatched(m, a, l, Apply, 0, cost);
    DispatchLeaves(m, a, l, Apply, 0, cost, agent, link, kind);
    assert Sound(sent) by { LeavesKeeps(m, sent, agent, link, kind); }
    BelieveLeaves(sent, a, l, cost, agent, link, kind);
    LeavesTrans(m, sent, sent.(workers := AppliedSent(sent.workers, a, l, cost)), agent, link, kind);
  }

  lemma Untouched(m: Mesh, agent: string, link: LinkKey, kind: Kind)
    requires Sound(m)
    ensures Leaves(m, m, agent, link, kind)
  {
  }

  // ── A link's turn ────────────────────────────────────────────────────────

  /** What a turn does about one kind of command. */
  ghost predicate TurnOf(m: Mesh, m': Mesh, cad: Cadence, rec: Option<Kv.Verdict>,
                         agent: string, link: LinkKey, kind: Kind)
  {
    && (GoesOut(m, m', agent, link, kind) <==> Goes(m, cad, rec, agent, link, kind))
    && (forall id :: IsNew(m, m', id, agent, link, kind) ==>
          match kind
          case Always => m'.streams[id] == Stream(agent, link, Always, 0, 0, None)
          case Throughput =>
            && m'.streams[id] == Stream(agent, link, Throughput, m'.streams[id].token, 0, None)
            && link in m'.leases
            && m'.leases[link] == Lease(agent, link, m'.streams[id].token, m.now, 120)
          case Apply =>
            && rec.Some? && rec.value.cost.Some?
            && m'.streams[id] == Stream(agent, link, Apply, 0, rec.value.cost.value, None))
    && IssueTime(m', agent, link, kind)
       == if Issues(m, cad, rec, agent, link, kind) then Some(m.now) else IssueTime(m, agent, link, kind)
  }

  /** What dates a kind of probe: its being sent, or a test's being spared. */
  predicate Issues(m: Mesh, cad: Cadence, rec: Option<Kv.Verdict>, agent: string, link: LinkKey, kind: Kind) {
    && kind != Apply
    && (Goes(m, cad, rec, agent, link, kind)
        || (kind == Throughput && agent in m.workers && Spared(m, cad, rec, agent, link)))
  }

  lemma DueIsElapsed(m: Mesh, agent: string, link: LinkKey, kind: Kind, interval: nat)
    requires interval > 0
    ensures ProbeIsDue(m.workers, agent, link, kind, m.now, interval)
       <==> agent in m.workers && Elapsed(m.workers[agent], link, kind, m.now, interval)
  {
  }

  lemma BlockedIsOccupied(leases: Leases, link: LinkKey, now: nat)
    ensures Blocked(Live(leases, now), link) <==> !NodesFree(leases, link, now)
  {
    var live := Live(leases, now);
    if !NodesFree(leases, link, now) {
      var k :| k in leases && Running(leases[k], now)
        && !(&& leases[k].link.from != link.from && leases[k].link.from != link.to
             && leases[k].link.to != link.from && leases[k].link.to != link.to);
      assert k in live && live[k].Occupies(link);
    }
    if Blocked(live, link) {
      var k :| k in live && live[k].Occupies(link);
      assert k in leases;
    }
  }

  lemma ProofIsProved(good: Option<real>, rec: Option<Kv.Verdict>)
    ensures PassiveProof(good, rec) <==> Proved(good, rec)
  {
  }

  /** A command that can go out does, and claims its issue time if it is a probe. */
  lemma SentIsNew(m: Mesh, agent: string, link: LinkKey, kind: Kind, token: nat, cost: nat)
    requires Sound(m)
    ensures var m' := Dispatched(m, agent, link, kind, token, cost);
            && (GoesOut(m, m', agent, link, kind) <==> CanDispatch(m, agent, link, kind))
            && (forall id :: IsNew(m, m', id, agent, link, kind) ==>
                  m'.streams[id] == Stream(agent, link, kind, token, cost, None))
  {
    hide CanDispatch, Begun, NodeDisjoint;
    var m' := Dispatched(m, agent, link, kind, token, cost);
    if CanDispatch(m, agent, link, kind) {
      assert IsNew(m, m', m.next, agent, link, kind);
    }
  }

  lemma SameStreamsGoOut(m: Mesh, sent: Mesh, m': Mesh, agent: string, link: LinkKey, kind: Kind)
    requires m'.streams == sent.streams
    ensures GoesOut(m, m', agent, link, kind) <==> GoesOut(m, sent, agent, link, kind)
  {
    if id :| IsNew(m, sent, id, agent, link, kind) {
      assert IsNew(m, m', id, agent, link, kind);
    }
    if id :| IsNew(m, m', id, agent, link, kind) {
      assert IsNew(m, sent, id, agent, link, kind);
    }
  }

  lemma BegunKeepsTimes(m: Mesh, agent: string, link: LinkKey, kind: Kind, token: nat, cost: nat)
    ensures var m' := Dispatched(m, agent, link, kind, token, cost);
            && m'.workers.Keys == m.workers.Keys
            && forall l, k :: IssueTime(m', agent, l, k) == IssueTime(m, agent, l, k)
  {
  }

  /** A dispatch, dated if it went out. */
  lemma SentAndDated(m: Mesh, m': Mesh, agent: string, link: LinkKey, kind: Kind, token: nat)
    requires Sound(m)
    requires var sent := Dispatched(m, agent, link, kind, token, 0);
             m' == if CanDispatch(m, agent, link, kind)
                   then sent.(workers := Issued(sent.workers, agent, link, kind, m.now)) else sent
    ensures GoesOut(m, m', agent, link, kind) <==> CanDispatch(m, agent, link, kind)
    ensures forall id :: IsNew(m, m', id, agent, link, kind) ==>
              m'.streams[id] == Stream(agent, link, kind, token, 0, None)
    ensures IssueTime(m', agent, link, kind)
         == if CanDispatch(m, agent, link, kind) then Some(m.now) else IssueTime(m, agent, link, kind)
    ensures Sound(m') && m'.leases == m.leases && m'.now == m.now
  {
    var sent := Dispatched(m, agent, link, kind, token, 0);
    SentIsNew(m, agent, link, kind, token, 0);
    SameStreamsGoOut(m, sent, m', agent, link, kind);
    BegunKeepsTimes(m, agent, link, kind, token, 0);
    DispatchChanges(m, agent, link, kind, token, 0);
    hide Dispatched, NodeDisjoint, GoesOut, SameBooks, StreamsStay;
    forall id | IsNew(m, m', id, agent, link, kind)
      ensures m'.streams[id] == Stream(agent, link, kind, token, 0, None)
    {
      assert IsNew(m, sent, id, agent, link, kind);
    }
  }

  lemma NothingNew(m: Mesh, agent: string, link: LinkKey, kind: Kind)
    ensures !GoesOut(m, m, agent, link, kind)
  {
  }

  lemma PingTurn(m: Mesh, cad: Cadence, rec: Option<Kv.Verdict>, agent: string, link: LinkKey)
    requires Sound(m)
    ensures TurnOf(m, PingLeg(m, cad, agent, link), cad, rec, agent, link, Always)
    ensures Sound(PingLeg(m, cad, agent, link)) && PingLeg(m, cad, agent, link).leases == m.leases
    ensures PingLeg(m, cad, agent, link).now == m.now
  {
    hide Sound, Dispatched, GoesOut, Issued, IssueTime;
    DueIsElapsed(m, agent, link, Always, Max(cad.always, 1));
    NothingNew(m, agent, link, Always);
    if ProbeIsDue(m.workers, agent, link, Always, m.now, Max(cad.always, 1)) {
      SentAndDated(m, PlannedPing(m, agent, link), agent, link, Always, 0);
    } else {
      assert forall id :: !IsNew(m, m, id, agent, link, Always);
    }
  }

  /** Outstanding commands stay as they are. */
  ghost predicate Keeps(m: Mesh, m': Mesh) {
    forall id :: id in m.streams ==> id in m'.streams && m'.streams[id] == m.streams[id]
  }

  // ── Putting turns together ───────────────────────────────────────────────

  lemma TurnThenLeaves(m: Mesh, m1: Mesh, m2: Mesh, cad: Cadence, rec: Option<Kv.Verdict>,
                       agent: string, link: LinkKey, kind: Kind)
    requires TurnOf(m, m1, cad, rec, agent, link, kind) && m1.now == m.now
    requires Leaves(m1, m2, agent, link, kind)
    ensures TurnOf(m, m2, cad, rec, agent, link, kind)
  {
    hide Goes, Issues, Sound, IssueTime;
    forall id ensures IsNew(m, m2, id, agent, link, kind) <==> IsNew(m, m1, id, agent, link, kind) {
      assert !IsNew(m1, m2, id, agent, link, kind);
    }
    if GoesOut(m, m1, agent, link, kind) {
      var id :| IsNew(m, m1, id, agent, link, kind);
      assert IsNew(m, m2, id, agent, link, kind);
    }
  }

  lemma LeavesThenTurn(m: Mesh, m1: Mesh, m2: Mesh, cad: Cadence, rec: Option<Kv.Verdict>,
                       agent: string, link: LinkKey, kind: Kind)
    requires Leaves(m, m1, agent, link, kind) && TurnOf(m1, m2, cad, rec, agent, link, kind)
    requires Goes(m1, cad, rec, agent, link, kind) == Goes(m, cad, rec, agent, link, kind)
    requires Issues(m1, cad, rec, agent, link, kind) == Issues(m, cad, rec, agent, link, kind)
    requires Keeps(m1, m2)
    ensures TurnOf(m, m2, cad, rec, agent, link, kind)
  {
    hide Goes, Issues, Sound, IssueTime;
    forall id ensures IsNew(m, m2, id, agent, link, kind) <==> IsNew(m1, m2, id, agent, link, kind) {
      assert !IsNew(m, m1, id, agent, link, kind);
    }
    if GoesOut(m1, m2, agent, link, kind) {
      var id :| IsNew(m1, m2, id, agent, link, kind);
      assert IsNew(m, m2, id, agent, link, kind);
    }
  }

  lemma LeavesKeep(m: Mesh, m': Mesh, agent: string, link: LinkKey, kind: Kind)
    requires Leaves(m, m', agent, link, kind)
    ensures Keeps(m, m')
  {
  }

  lemma GoesSame(m: Mesh, m': Mesh, cad: Cadence, rec: Option<Kv.Verdict>, agent: string, link: LinkKey, kind: Kind)
    requires Leaves(m, m', agent, link, kind) && Leaves(m, m', agent, link, Throughput)
    requires kind == Throughput ==> m'.leases == m.leases
    ensures Goes(m', cad, rec, agent, link, kind) == Goes(m, cad, rec, agent, link, kind)
    ensures Issues(m', cad, rec, agent, link, kind) == Issues(m, cad, rec, agent, link, kind)
  {
    hide Proved, NodesFree, GoesOut, Sound;
    if agent in m.workers {
      ElapsedSame(m, m', agent, link, kind);
      ElapsedSame(m, m', agent, link, Throughput);
    }
  }

  lemma ElapsedSame(m: Mesh, m': Mesh, agent: string, link: LinkKey, kind: Kind)
    requires agent in m.workers && agent in m'.workers
    requires IssueTime(m', agent, link, kind) == IssueTime(m, agent, link, kind)
    ensures forall now, interval ::
              Elapsed(m'.workers[agent], link, kind, now, interval)
              == Elapsed(m.workers[agent], link, kind, now, interval)
  {
  }

  // ── The legs ─────────────────────────────────────────────────────────────

  lemma PingLegLeaves(m: Mesh, cad: Cadence, a: string, l: LinkKey, agent: string, link: LinkKey, kind: Kind)
    requires Sound(m) && (a, l, Always) != (agent, link, kind)
    ensures Leaves(m, PingLeg(m, cad, a, l), agent, link, kind)
  {
    hide Leaves, PlannedPing, ProbeIsDue;
    Untouched(m, agent, link, kind);
    PingLeaves(m, a, l, agent, link, kind);
  }

  lemma CostLegLeaves(m: Mesh, rec: Option<Kv.Verdict>, a: string, l: LinkKey, agent: string, link: LinkKey, kind: Kind)
    requires Sound(m) && (a, l, Apply) != (agent, link, kind)
    ensures Leaves(m, CostLeg(m, rec, a, l), agent, link, kind)
  {
    hide Leaves, PlannedCost;
    Untouched(m, agent, link, kind);
    if rec.Some? && rec.value.cost.Some? {
      CostLeaves(m, a, l, rec.value.cost.value, agent, link, kind);
    }
  }

  lemma LegsLeave(m: Mesh, cad: Cadence, rec: Option<Kv.Verdict>, a: string, l: LinkKey,
                  agent: string, link: LinkKey, kind: Kind)
    requires Sound(m) && ((a, l) != (agent, link) || kind == Always)
    ensures Leaves(m, TestAndCostLegs(m, cad, rec, a, l), agent, link, kind)
  {
    hide Leaves, PlannedTest, CostLeg, ProbeIsDue, PassiveProof, Issued;
    CostLegLeaves(m, rec, a, l, agent, link, kind);
    IssueLeaves(m, a, l, Throughput, agent, link, kind);
    TestLeaves(m, a, l, agent, link, kind);
    var tested := PlannedTest(m, a, l);
    LeavesKeeps(m, tested, agent, link, kind);
    CostLegLeaves(tested, rec, a, l, agent, link, kind);
    LeavesTrans(m, tested, CostLeg(tested, rec, a, l), agent, link, kind);
  }

  /** Another link's turn. */
  lemma OtherTurn(m: Mesh, cad: Cadence, rec: Option<Kv.Verdict>, a: string, l: LinkKey,
                  agent: string, link: LinkKey, kind: Kind)
    requires Sound(m) && (a, l) != (agent, link)
    ensures Leaves(m, PlannedLink(m, cad, rec, a, l), agent, link, kind)
  {
    hide Leaves, PingLeg, TestAndCostLegs;
    var pinged := PingLeg(m, cad, a, l);
    PingLegLeaves(m, cad, a, l, agent, link, kind);
    LeavesKeeps(m, pinged, agent, link, kind);
    LegsLeave(pinged, cad, rec, a, l, agent, link, kind);
    LeavesTrans(m, pinged, TestAndCostLegs(pinged, cad, rec, a, l), agent, link, kind);
  }

  // ── The test ─────────────────────────────────────────────────────────────

  lemma NoTurn(m: Mesh, m': Mesh, cad: Cadence, rec: Option<Kv.Verdict>, agent: string, link: LinkKey, kind: Kind)
    requires Leaves(m, m', agent, link, kind)
    requires !Goes(m, cad, rec, agent, link, kind) && !Issues(m, cad, rec, agent, link, kind)
    ensures TurnOf(m, m', cad, rec, agent, link, kind)
  {
    hide Goes, Issues, Sound, IssueTime;
    assert forall id :: !IsNew(m, m', id, agent, link, kind);
  }

  /** A due test whose link is not proved. */
  lemma TestLegTurn(m: Mesh, cad: Cadence, rec: Option<Kv.Verdict>, agent: string, link: LinkKey)
    requires Sound(m) && agent in m.workers && !Proved(cad.goodTcp, rec)
    requires Elapsed(m.workers[agent], link, Throughput, m.now, Max(cad.throughput, 1))
    ensures TurnOf(m, PlannedTest(m, agent, link), cad, rec, agent, link, Throughput)
    ensures Sound(PlannedTest(m, agent, link)) && PlannedTest(m, agent, link).now == m.now
  {
    hide Elapsed, Proved, Dispatched, Issued, GoesOut, IssueTime, NodesFree, Sound, Live, Acquired, Released;
    BlockedIsOccupied(m.leases, link, m.now);
    if Blocked(Live(m.leases, m.now), link) {
      BlockedLeaves(m, agent, link, agent, link, Throughput);
      NoTurn(m, PlannedTest(m, agent, link), cad, rec, agent, link, Throughput);
    } else {
      GrantTurn(m, cad, rec, agent, link);
    }
  }

  lemma GrantTurn(m: Mesh, cad: Cadence, rec: Option<Kv.Verdict>, agent: string, link: LinkKey)
    requires Sound(m) && agent in m.workers && !Proved(cad.goodTcp, rec) && NodesFree(m.leases, link, m.now)
    requires Elapsed(m.workers[agent], link, Throughput, m.now, Max(cad.throughput, 1))
    requires !Blocked(Live(m.leases, m.now), link)
    ensures TurnOf(m, PlannedTest(m, agent, link), cad, rec, agent, link, Throughput)
    ensures Sound(PlannedTest(m, agent, link)) && PlannedTest(m, agent, link).now == m.now
  {
    hide Elapsed, Proved, Dispatched, Issued, GoesOut, NodesFree, Live, Released, NodeDisjoint, Blocked;
    var leases := Acquired(m.leases, agent, link, FENCE_TTL_SECS, m.now, m.next);
    var acquired, m' := m.(next := m.next + 1, leases := leases), PlannedTest(m, agent, link);
    GrantKeepsLeases(m.leases, agent, link, m.next, link, m.now);
    assert Sound(acquired);
    if CanDispatch(acquired, agent, link, Throughput) {
      SentAndDated(acquired, m', agent, link, Throughput, m.next);
      SameStreamsNew(m, acquired, m', agent, link, Throughput);
      assert m'.leases[link] == Lease(agent, link, m.next, m.now, FENCE_TTL_SECS);
    } else {
      NothingNew(m, agent, link, Throughput);
      SameStreamsGoOut(m, m, m', agent, link, Throughput);
      assert forall id :: !IsNew(m, m', id, agent, link, Throughput);
    }
  }

  lemma TestTurn(m: Mesh, cad: Cadence, rec: Option<Kv.Verdict>, agent: string, link: LinkKey)
    requires Sound(m)
    ensures TurnOf(m, TestAndCostLegs(m, cad, rec, agent, link), cad, rec, agent, link, Throughput)
  {
    hide Leaves, PlannedTest, CostLeg, ProbeIsDue, PassiveProof, Proved, Elapsed, Issued, Sound, TurnOf, NodesFree;
    DueIsElapsed(m, agent, link, Throughput, Max(cad.throughput, 1));
    ProofIsProved(cad.goodTcp, rec);
    if !ProbeIsDue(m.workers, agent, link, Throughput, m.now, Max(cad.throughput, 1)) {
      CostLegLeaves(m, rec, agent, link, agent, link, Throughput);
      NoTurn(m, CostLeg(m, rec, agent, link), cad, rec, agent, link, Throughput);
    } else if PassiveProof(cad.goodTcp, rec) {
      SparedTurn(m, cad, rec, agent, link);
    } else {
      TestLegTurn(m, cad, rec, agent, link);
      var tested := PlannedTest(m, agent, link);
      CostLegLeaves(tested, rec, agent, link, agent, link, Throughput);
      TurnThenLeaves(m, tested, CostLeg(tested, rec, agent, link), cad, rec, agent, link, Throughput);
    }
  }

  lemma SparedTurn(m: Mesh, cad: Cadence, rec: Option<Kv.Verdict>, agent: string, link: LinkKey)
    requires Sound(m) && agent in m.workers && Spared(m, cad, rec, agent, link)
    ensures var m' := m.(workers := Issued(m.workers, agent, link, Throughput, m.now));
            TurnOf(m, m', cad, rec, agent, link, Throughput)
  {
    hide Proved, Elapsed, NodesFree;
    var m' := m.(workers := Issued(m.workers, agent, link, Throughput, m.now));
    assert forall id :: !IsNew(m, m', id, agent, link, Throughput);
  }

  // ── The cost ─────────────────────────────────────────────────────────────

  lemma CostDue(m: Mesh, cad: Cadence, rec: Option<Kv.Verdict>, agent: string, link: LinkKey)
    requires Sound(m) && (agent in m.workers ==> !Spared(m, cad, rec, agent, link))
    ensures TurnOf(m, CostLeg(m, rec, agent, link), cad, rec, agent, link, Apply)
  {
    hide Spared, NodeDisjoint, Dispatched, GoesOut, AppliedSent;
    NothingNew(m, agent, link, Apply);
    assert forall id :: !IsNew(m, m, id, agent, link, Apply);
    if rec.Some? && rec.value.cost.Some? && ApplyIsDue(m.workers, agent, link, rec.value.cost.value, m.now) {
      var cost := rec.value.cost.value;
      CostSent(m, agent, link, cost);
    }
  }

  lemma CostSent(m: Mesh, agent: string, link: LinkKey, cost: nat)
    requires Sound(m)
    ensures var m' := SentCost(m, agent, link, cost);
            && (GoesOut(m, m', agent, link, Apply) <==> CanDispatch(m, agent, link, Apply))
            && (forall id :: IsNew(m, m', id, agent, link, Apply) ==>
                  m'.streams[id] == Stream(agent, link, Apply, 0, cost, None))
            && IssueTime(m', agent, link, Apply) == IssueTime(m, agent, link, Apply)
  {
    hide NodeDisjoint, CanDispatch, GoesOut;
    var sent, m' := Dispatched(m, agent, link, Apply, 0, cost), SentCost(m, agent, link, cost);
    SentIsNew(m, agent, link, Apply, 0, cost);
    SameStreamsGoOut(m, sent, m', agent, link, Apply);
    BegunKeepsTimes(m, agent, link, Apply, 0, cost);
    hide Dispatched;
    forall id | IsNew(m, m', id, agent, link, Apply)
      ensures m'.streams[id] == Stream(agent, link, Apply, 0, cost, None)
    {
      assert IsNew(m, sent, id, agent, link, Apply);
    }
  }

  lemma ApplyTurn(m: Mesh, cad: Cadence, rec: Option<Kv.Verdict>, agent: string, link: LinkKey)
    requires Sound(m)
    ensures TurnOf(m, TestAndCostLegs(m, cad, rec, agent, link), cad, rec, agent, link, Apply)
  {
    hide Leaves, PlannedTest, CostLeg, ProbeIsDue, PassiveProof, Proved, Elapsed, Issued, Sound, TurnOf, Keeps;
    DueIsElapsed(m, agent, link, Throughput, Max(cad.throughput, 1));
    ProofIsProved(cad.goodTcp, rec);
    if !ProbeIsDue(m.workers, agent, link, Throughput, m.now, Max(cad.throughput, 1)) {
      CostDue(m, cad, rec, agent, link);
    } else if PassiveProof(cad.goodTcp, rec) {
      IssueLeaves(m, agent, link, Throughput, agent, link, Apply);
      NoTurn(m, m.(workers := Issued(m.workers, agent, link, Throughput, m.now)), cad, rec, agent, link, Apply);
    } else {
      var tested := PlannedTest(m, agent, link);
      TestLeaves(m, agent, link, agent, link, Apply);
      LeavesKeeps(m, tested, agent, link, Apply);
      LeavesAgent(m, tested, agent, link, Apply);
      CostDue(tested, cad, rec, agent, link);
      CostKeeps(tested, rec, agent, link);
      UnsparedSame(m, tested, cad, rec, agent, link);
      LeavesThenTurn(m, tested, CostLeg(tested, rec, agent, link), cad, rec, agent, link, Apply);
    }
  }

  lemma LeavesAgent(m: Mesh, m': Mesh, agent: string, link: LinkKey, kind: Kind)
    requires Leaves(m, m', agent, link, kind)
    ensures agent in m.workers <==> agent in m'.workers
  {
  }

  lemma CostKeeps(m: Mesh, rec: Option<Kv.Verdict>, agent: string, link: LinkKey)
    requires Sound(m)
    ensures Keeps(m, CostLeg(m, rec, agent, link))
  {
    if rec.Some? && rec.value.cost.Some? {
      DispatchChanges(m, agent, link, Apply, 0, rec.value.cost.value);
      hide Dispatched, NodeDisjoint;
    }
  }

  /** Without a proof nothing is spared, whatever the test leg dated. */
  lemma UnsparedSame(m: Mesh, m': Mesh, cad: Cadence, rec: Option<Kv.Verdict>, agent: string, link: LinkKey)
    requires Leaves(m, m', agent, link, Apply) && !Proved(cad.goodTcp, rec)
    ensures Goes(m', cad, rec, agent, link, Apply) == Goes(m, cad, rec, agent, link, Apply)
    ensures Issues(m', cad, rec, agent, link, Apply) == Issues(m, cad, rec, agent, link, Apply)
  {
    hide Proved, Elapsed, GoesOut, Sound, KeepsLease;
  }

  // ── A whole turn, a whole tick ───────────────────────────────────────────

  lemma LinkTurn(m: Mesh, cad: Cadence, rec: Option<Kv.Verdict>, agent: string, link: LinkKey, kind: Kind)
    requires Sound(m)
    ensures TurnOf(m, PlannedLink(m, cad, rec, agent, link), cad, rec, agent, link, kind)
  {
    hide Leaves, PingLeg, TestAndCostLegs, TurnOf, Sound, Keeps;
    var pinged := PingLeg(m, cad, agent, link);
    PingTurn(m, cad, rec, agent, link);
    if kind == Always {
      LegsLeave(pinged, cad, rec, agent, link, agent, link, Always);
      TurnThenLeaves(m, pinged, TestAndCostLegs(pinged, cad, rec, agent, link), cad, rec, agent, link, Always);
    } else {
      PingLegLeaves(m, cad, agent, link, agent, link, kind);
      PingLegLeaves(m, cad, agent, link, agent, link, Throughput);
      GoesSame(m, pinged, cad, rec, agent, link, kind);
      if kind == Throughput {
        TestTurn(pinged, cad, rec, agent, link);
      } else {
        ApplyTurn(pinged, cad, rec, agent, link);
      }
      LegsKeep(pinged, cad, rec, agent, link);
      LeavesThenTurn(m, pinged, TestAndCostLegs(pinged, cad, rec, agent, link), cad, rec, agent, link, kind);
    }
  }

  lemma LegsKeep(m: Mesh, cad: Cadence, rec: Option<Kv.Verdict>, agent: string, link: LinkKey)
    requires Sound(m)
    ensures Keeps(m, TestAndCostLegs(m, cad, rec, agent, link))
  {
    hide Leaves, TestAndCostLegs;
    LegsLeave(m, cad, rec, agent, link, agent, link, Always);
    LeavesKeep(m, TestAndCostLegs(m, cad, rec, agent, link), agent, link, Always);
  }

  lemma {:induction false} OtherTurns(m: Mesh, cad: Cadence, records: Kv.Records, owned: seq<(string, LinkKey)>,
                                      agent: string, link: LinkKey, kind: Kind)
    requires Sound(m) && (agent, link) !in owned
    ensures Leaves(m, PlannedLinks(m, cad, records, owned), agent, link, kind)
    decreases |owned|
  {
    hide Leaves, PlannedLink;
    if owned == [] {
      Untouched(m, agent, link, kind);
    } else {
      var front := owned[..|owned| - 1];
      var (a, l) := owned[|owned| - 1];
      var before := PlannedLinks(m, cad, records, front);
      OtherTurns(m, cad, records, front, agent, link, kind);
      LeavesKeeps(m, before, agent, link, kind);
      OtherTurn(before, cad, Find(records, l), a, l, agent, link, kind);
      LeavesTrans(m, before, PlannedLink(before, cad, Find(records, l), a, l), agent, link, kind);
    }
  }

  predicate ListedAt(owned: seq<(string, LinkKey)>, k: nat, agent: string, link: LinkKey) {
    k < |owned| && owned[k] == (agent, link) && forall i :: 0 <= i < |owned| && i != k ==> owned[i] != (agent, link)
  }

  /** What a whole tick does about a link: exactly what is due of it goes out, once its
      turn comes, with the leases as the links before it left them. */
  lemma {:induction false} TickTurn(m: Mesh, cad: Cadence, records: Kv.Records, owned: seq<(string, LinkKey)>, k: nat,
                                    agent: string, link: LinkKey, kind: Kind)
    requires Sound(m) && ListedAt(owned, k, agent, link)
    ensures var here := m.(leases := PlannedLinks(m, cad, records, owned[..k]).leases);
            TurnOf(here, PlannedLinks(m, cad, records, owned), cad, Find(records, link), agent, link, kind)
    ensures Sound(PlannedLinks(m, cad, records, owned)) && PlannedLinks(m, cad, records, owned).now == m.now
    decreases |owned|
  {
    hide Leaves, PlannedLink, TurnOf, Sound, Keeps, GoesOut;
    var last := |owned| - 1;
    var front := owned[..last];
    var (a, l) := owned[last];
    var before := PlannedLinks(m, cad, records, front);
    if k == last {
      OtherTurns(m, cad, records, front, agent, link, kind);
      OtherTurns(m, cad, records, front, agent, link, Throughput);
      LeavesKeeps(m, before, agent, link, kind);
      LinkTurn(before, cad, Find(records, link), agent, link, kind);
      var after := PlannedLink(before, cad, Find(records, link), agent, link);
      SoundAfterTurn(before, cad, Find(records, link), agent, link);
      HereLeaves(m, before, agent, link, kind);
      HereLeaves(m, before, agent, link, Throughput);
      var here := m.(leases := before.leases);
      GoesSame(here, before, cad, Find(records, link), agent, link, kind);
      LeavesThenTurn(here, before, after, cad, Find(records, link), agent, link, kind);
    } else {
      assert front[..k] == owned[..k] && owned[last] != (agent, link);
      TickTurn(m, cad, records, front, k, agent, link, kind);
      OtherTurn(before, cad, Find(records, l), a, l, agent, link, kind);
      var after := PlannedLink(before, cad, Find(records, l), a, l);
      LeavesKeeps(before, after, agent, link, kind);
      TurnThenLeaves(m.(leases := PlannedLinks(m, cad, records, owned[..k]).leases), before, after,
                     cad, Find(records, link), agent, link, kind);
    }
  }

  /** The agent is ready to be told a cost: a free slot, another cost believed sent, and
      no back-off. */
  predicate WantsCost(m: Mesh, agent: string, link: LinkKey, cost: nat) {
    && agent in m.workers
    && var w := m.workers[agent];
       && w.session.Some? && (link, Apply) !in w.inFlight
       && (link in w.appliedSent ==> w.appliedSent[link] != cost)
       && (link in w.retryAt ==> w.retryAt[link] <= m.now)
  }

  /** From a classified link to its agent: after a pass that recorded the view, the next
      tick sends exactly the cost in force, exactly when the agent is ready for it and
      the link's test was not found unnecessary in this turn. */
  lemma ClassifiedCostGoesOut(m: Mesh, cad: Cadence, before: Kv.Records, records: Kv.Records, view: Quality.View,
                              last: map<LinkKey, Classifier.Policy>, owned: seq<(string, LinkKey)>, k: nat,
                              agent: string, link: LinkKey)
    requires Sound(m) && ListedAt(owned, k, agent, link)
    requires Classifier.Recorded(before, records, link, view, last)
    requires link in before ==> before[link].ts <= view.ts
    ensures var m' := PlannedLinks(m, cad, records, owned);
            && (GoesOut(m, m', agent, link, Apply)
                <==> link in last && WantsCost(m, agent, link, last[link].cost)
                     && !Spared(m, cad, Find(records, link), agent, link))
            && (forall id :: IsNew(m, m', id, agent, link, Apply) ==>
                  link in last && m'.streams[id] == Stream(agent, link, Apply, 0, last[link].cost, None))
  {
    hide Sound, GoesOut, Spared, IssueTime, Issues;
    var m' := PlannedLinks(m, cad, records, owned);
    TickTurn(m, cad, records, owned, k, agent, link, Apply);
    var here := m.(leases := PlannedLinks(m, cad, records, owned[..k]).leases);
    SameStreamsNew(m, here, m', agent, link, Apply);
    if agent in m.workers {
      SparedSame(m, here, cad, Find(records, link), agent, link);
    }
  }

  lemma SameStreamsNew(m: Mesh, here: Mesh, m': Mesh, agent: string, link: LinkKey, kind: Kind)
    requires here.streams == m.streams
    ensures GoesOut(m, m', agent, link, kind) <==> GoesOut(here, m', agent, link, kind)
    ensures forall id :: IsNew(m, m', id, agent, link, kind) <==> IsNew(here, m', id, agent, link, kind)
  {
    if id :| IsNew(m, m', id, agent, link, kind) {
      assert IsNew(here, m', id, agent, link, kind);
    }
    if id :| IsNew(here, m', id, agent, link, kind) {
      assert IsNew(m, m', id, agent, link, kind);
    }
  }

  lemma SparedSame(m: Mesh, here: Mesh, cad: Cadence, rec: Option<Kv.Verdict>, agent: string, link: LinkKey)
    requires here == m.(leases := here.leases) && agent in m.workers
    ensures Spared(here, cad, rec, agent, link) == Spared(m, cad, rec, agent, link)
  {
  }

  lemma HereLeaves(m: Mesh, before: Mesh, agent: string, link: LinkKey, kind: Kind)
    requires Leaves(m, before, agent, link, kind)
    ensures Leaves(m.(leases := before.leases), before, agent, link, kind)
  {
    hide Sound;
    forall id ensures !IsNew(m.(leases := before.leases), before, id, agent, link, kind) {
      assert !IsNew(m, before, id, agent, link, kind);
    }
  }

  lemma SoundAfterTurn(m: Mesh, cad: Cadence, rec: Option<Kv.Verdict>, agent: string, link: LinkKey)
    requires Sound(m)
    ensures Sound(PlannedLink(m, cad, rec, agent, link)) && PlannedLink(m, cad, rec, agent, link).now == m.now
    ensures Keeps(m, PlannedLink(m, cad, rec, agent, link))
  {
    hide Leaves, PingLeg, TestAndCostLegs, Sound, TurnOf, Keeps;
    var pinged := PingLeg(m, cad, agent, link);
    PingTurn(m, cad, rec, agent, link);
    PingKeeps(m, cad, agent, link);
    LegsLeave(pinged, cad, rec, agent, link, agent, link, Always);
    LeavesKeeps(pinged, TestAndCostLegs(pinged, cad, rec, agent, link), agent, link, Always);
    LegsKeep(pinged, cad, rec, agent, link);
    KeepsTrans(m, pinged, TestAndCostLegs(pinged, cad, rec, agent, link));
  }

  lemma PingKeeps(m: Mesh, cad: Cadence, agent: string, link: LinkKey)
    requires Sound(m)
    ensures Keeps(m, PingLeg(m, cad, agent, link))
  {
    hide Leaves, PingLeg;
    PingLegLeaves(m, cad, agent, link, agent, link, Apply);
    LeavesKeep(m, PingLeg(m, cad, agent, link), agent, link, Apply);
  }

  lemma KeepsTrans(a: Mesh, b: Mesh, c: Mesh)
    requires Keeps(a, b) && Keeps(b, c)
    ensures Keeps(a, c)
  {
  }

  // ── Spacing over runs ────────────────────────────────────────────────────

  /** A tick over the links owned then, or anything else but a registration. */
  datatype Event = Tick(owned: seq<(string, LinkKey)>, records: Kv.Records) | Else(a: Action)

  /** Answers, failures, evictions and time. */
  predicate Passive(a: Action) { a.Tick? || a.Detach? || a.Execute? || a.Reply? || a.Fail? }

  ghost predicate Allowed(e: Event) {
    match e
    case Tick(owned, _) => forall i, j :: 0 <= i < j < |owned| ==> owned[i] != owned[j]
    case Else(a) => Passive(a)
  }

  function AfterEvent(m: Mesh, cad: Cadence, e: Event): Mesh {
    match e
    case Tick(owned, records) => PlannedLinks(m, cad, records, owned)
    case Else(a) => After(m, a)
  }

  function AfterEvents(m: Mesh, cad: Cadence, events: seq<Event>): Mesh
    decreases |events|
  {
    if events == [] then m else AfterEvent(AfterEvents(m, cad, events[..|events| - 1]), cad, events[|events| - 1])
  }

  function Interval(cad: Cadence, kind: Kind): nat {
    if kind == Always then Max(cad.always, 1) else Max(cad.throughput, 1)
  }

  /** Nothing new, and no issue time moved. */
  ghost predicate Settles(m: Mesh, m': Mesh, agent: string, link: LinkKey, kind: Kind) {
    && Sound(m') && m.now <= m'.now && !GoesOut(m, m', agent, link, kind)
    && (agent in m'.workers ==>
          agent in m.workers && IssueTime(m', agent, link, kind) == IssueTime(m, agent, link, kind))
  }

  lemma PassiveKeeps(m: Mesh, a: Action, agent: string, link: LinkKey, kind: Kind)
    requires Sound(m) && Passive(a)
    ensures Settles(m, After(m, a), agent, link, kind)
  {
    hide Settles, Sound, Executed, Replied, Failed;
    assert Settles(m, m, agent, link, kind) by { NothingSettles(m, agent, link, kind); }
    match a
    case Tick(now) =>
      if m.now <= now {
        TimeSettles(m, now, agent, link, kind);
      }
    case Detach(gone, generation) => DetachSettles(m, gone, agent, link, kind);
    case Execute(id, ok) =>
      if id in m.streams {
        ExecuteSettles(m, id, ok, agent, link, kind);
      }
    case Reply(id) =>
      if id in m.streams {
        EndSettles(m, id, agent, link, kind);
      }
    case Fail(id) =>
      if id in m.streams {
        EndSettles(m, id, agent, link, kind);
      }
    case _ =>
  }

  lemma NothingSettles(m: Mesh, agent: string, link: LinkKey, kind: Kind)
    requires Sound(m)
    ensures Settles(m, m, agent, link, kind)
  {
  }

  lemma TimeSettles(m: Mesh, now: nat, agent: string, link: LinkKey, kind: Kind)
    requires Sound(m) && m.now <= now
    ensures Settles(m, m.(now := now), agent, link, kind)
  {
  }

  lemma DetachSettles(m: Mesh, gone: string, agent: string, link: LinkKey, kind: Kind)
    requires Sound(m)
    ensures Settles(m, m.(workers := m.workers - {gone}), agent, link, kind)
  {
  }

  lemma ExecuteSettles(m: Mesh, id: nat, ok: bool, agent: string, link: LinkKey, kind: Kind)
    requires Sound(m) && id in m.streams
    ensures Settles(m, Executed(m, id, ok), agent, link, kind)
  {
  }

  lemma CloseSettles(m: Mesh, settled: Mesh, id: nat, agent: string, link: LinkKey, kind: Kind)
    requires Sound(m) && id in m.streams && NodeDisjoint(settled.leases)
    requires settled.streams == m.streams && settled.now == m.now && settled.next == m.next
    requires settled.workers.Keys == m.workers.Keys
    requires IssueTime(settled, agent, link, kind) == IssueTime(m, agent, link, kind)
    ensures Settles(m, Closed(settled, id), agent, link, kind)
  {
    hide NodeDisjoint;
    var m' := Closed(settled, id);
    assert forall i :: !IsNew(m, m', i, agent, link, kind);
  }

  lemma EndSettles(m: Mesh, id: nat, agent: string, link: LinkKey, kind: Kind)
    requires Sound(m) && id in m.streams
    ensures Settles(m, Failed(m, id), agent, link, kind)
    ensures m.streams[id].answer.Some? ==> Settles(m, Replied(m, id), agent, link, kind)
  {
    hide Settles, Closed, NodeDisjoint, Released;
    var s := m.streams[id];
    var noted := NotedFailure(m, s);
    var sent := m.(workers := AppliedSent(m.workers, s.agent, s.link, s.cost));
    var released := m.(leases := Released(m.leases, s.link, s.token));
    ReleaseDisjoint(m.leases, s.link, s.token);
    CloseSettles(m, m, id, agent, link, kind);
    CloseSettles(m, noted, id, agent, link, kind);
    CloseSettles(m, sent, id, agent, link, kind);
    CloseSettles(m, released, id, agent, link, kind);
  }

  lemma ReleaseDisjoint(leases: Leases, link: LinkKey, token: nat)
    requires NodeDisjoint(leases)
    ensures NodeDisjoint(Released(leases, link, token))
  {
  }

  /** A probe's issue time after an event: now if it is dated, else as it was. */
  lemma EventDates(m: Mesh, cad: Cadence, e: Event, agent: string, link: LinkKey, kind: Kind)
    requires Sound(m) && Allowed(e) && kind != Apply
    ensures var m' := AfterEvent(m, cad, e);
            && Sound(m') && m.now <= m'.now
            && (agent in m'.workers ==> agent in m.workers)
            && (GoesOut(m, m', agent, link, kind) ==>
                  && e.Tick? && m'.now == m.now && agent in m.workers
                  && Elapsed(m.workers[agent], link, kind, m.now, Interval(cad, kind))
                  && IssueTime(m', agent, link, kind) == Some(m.now))
            && (agent in m'.workers ==>
                  IssueTime(m', agent, link, kind) in {Some(m.now), IssueTime(m, agent, link, kind)})
  {
    hide Sound, GoesOut, IssueTime, PlannedLinks, Elapsed, Leaves, Proved, NodesFree;
    match e
    case Else(a) =>
      PassiveKeeps(m, a, agent, link, kind);
    case Tick(owned, records) =>
      var m' := PlannedLinks(m, cad, records, owned);
      TickAgents(m, cad, records, owned);
      if k :| 0 <= k < |owned| && owned[k] == (agent, link) {
        var here := m.(leases := PlannedLinks(m, cad, records, owned[..k]).leases);
        TickTurn(m, cad, records, owned, k, agent, link, kind);
        SameStreams(here, m, m', agent, link, kind);
        SameIssue(here, m, agent, link, kind);
      } else {
        OtherTurns(m, cad, records, owned, agent, link, kind);
        LeavesKeeps(m, m', agent, link, kind);
        LeavesIssue(m, m', agent, link, kind);
      }
  }

  lemma LeavesIssue(m: Mesh, m': Mesh, agent: string, link: LinkKey, kind: Kind)
    requires Leaves(m, m', agent, link, kind)
    ensures !GoesOut(m, m', agent, link, kind) && IssueTime(m', agent, link, kind) == IssueTime(m, agent, link, kind)
  {
  }

  lemma SameStreams(here: Mesh, m: Mesh, m': Mesh, agent: string, link: LinkKey, kind: Kind)
    requires here == m.(leases := here.leases)
    ensures GoesOut(here, m', agent, link, kind) <==> GoesOut(m, m', agent, link, kind)
  {
    if id :| IsNew(here, m', id, agent, link, kind) {
      assert IsNew(m, m', id, agent, link, kind);
    }
    if id :| IsNew(m, m', id, agent, link, kind) {
      assert IsNew(here, m', id, agent, link, kind);
    }
  }

  lemma SameIssue(here: Mesh, m: Mesh, agent: string, link: LinkKey, kind: Kind)
    requires here == m.(leases := here.leases)
    ensures IssueTime(here, agent, link, kind) == IssueTime(m, agent, link, kind)
  {
  }

  lemma {:induction false} TickAgents(m: Mesh, cad: Cadence, records: Kv.Records, owned: seq<(string, LinkKey)>)
    ensures PlannedLinks(m, cad, records, owned).workers.Keys == m.workers.Keys
    decreases |owned|
  {
    hide PlannedLink;
    if owned != [] {
      var front := owned[..|owned| - 1];
      var (agent, link) := owned[|owned| - 1];
      TickAgents(m, cad, records, front);
      TurnAgents(PlannedLinks(m, cad, records, front), cad, Find(records, link), agent, link);
    }
  }

  lemma TurnAgents(m: Mesh, cad: Cadence, rec: Option<Kv.Verdict>, agent: string, link: LinkKey)
    ensures PlannedLink(m, cad, rec, agent, link).workers.Keys == m.workers.Keys
  {
    hide TestAndCostLegs, PlannedPing, ProbeIsDue;
    PingAgents(m, agent, link);
    LegsAgents(PingLeg(m, cad, agent, link), cad, rec, agent, link);
  }

  lemma LegsAgents(m: Mesh, cad: Cadence, rec: Option<Kv.Verdict>, agent: string, link: LinkKey)
    ensures TestAndCostLegs(m, cad, rec, agent, link).workers.Keys == m.workers.Keys
  {
    hide CostLeg, PlannedTest, ProbeIsDue, PassiveProof, Issued;
    TestKeepsAgents(m, agent, link);
    IssueKeepsAgents(m, agent, link, Throughput, m.now);
    CostAgents(m, rec, agent, link);
    CostAgents(PlannedTest(m, agent, link), rec, agent, link);
  }

  lemma CostAgents(m: Mesh, rec: Option<Kv.Verdict>, agent: string, link: LinkKey)
    ensures CostLeg(m, rec, agent, link).workers.Keys == m.workers.Keys
  {
    hide PlannedCost;
    if rec.Some? && rec.value.cost.Some? {
      CostKeepsAgents(m, agent, link, rec.value.cost.value);
    }
  }

  lemma PingAgents(m: Mesh, agent: string, link: LinkKey)
    ensures PlannedPing(m, agent, link).workers.Keys == m.workers.Keys
  {
    hide CanDispatch;
  }

  /** The issue time is no earlier than t while the agent stays. */
  ghost predicate DatedSince(m: Mesh, agent: string, link: LinkKey, kind: Kind, t: nat) {
    && t <= m.now
    && (agent in m.workers ==>
          IssueTime(m, agent, link, kind).Some? && IssueTime(m, agent, link, kind).value >= t)
  }

  lemma {:induction false} StaysDated(m: Mesh, cad: Cadence, events: seq<Event>, agent: string, link: LinkKey,
                                      kind: Kind, t: nat)
    requires Sound(m) && (forall e :: e in events ==> Allowed(e)) && kind != Apply
    requires DatedSince(m, agent, link, kind, t)
    ensures Sound(AfterEvents(m, cad, events)) && DatedSince(AfterEvents(m, cad, events), agent, link, kind, t)
    decreases |events|
  {
    hide Sound, IssueTime, AfterEvent, GoesOut, Allowed, Elapsed;
    if events != [] {
      var front, e := events[..|events| - 1], events[|events| - 1];
      assert e in events && forall f :: f in front ==> f in events;
      StaysDated(m, cad, front, agent, link, kind, t);
      EventDates(AfterEvents(m, cad, front), cad, e, agent, link, kind);
    }
  }

  /** Two probes of a kind on a link, sent by different ticks with no registration
      between, are at least the interval apart. */
  lemma ProbesAreSpaced(m: Mesh, cad: Cadence, first: Event, between: seq<Event>, second: Event,
                        agent: string, link: LinkKey, kind: Kind)
    requires Sound(m) && kind != Apply && Allowed(first) && Allowed(second) && forall e :: e in between ==> Allowed(e)
    requires GoesOut(m, AfterEvent(m, cad, first), agent, link, kind)
    requires var later := AfterEvents(AfterEvent(m, cad, first), cad, between);
             GoesOut(later, AfterEvent(later, cad, second), agent, link, kind)
    ensures AfterEvents(AfterEvent(m, cad, first), cad, between).now >= m.now + Interval(cad, kind)
  {
    hide Sound, AfterEvent, AfterEvents, GoesOut, Allowed;
    var after := AfterEvent(m, cad, first);
    EventDates(m, cad, first, agent, link, kind);
    StaysDated(after, cad, between, agent, link, kind, m.now);
    EventDates(AfterEvents(after, cad, between), cad, second, agent, link, kind);
  }
}
