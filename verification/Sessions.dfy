/** Which connection an agent is reached on (crates/controller/src/worker.rs, `attach` and
    `detach`), over any run. */
module Sessions {
  import opened Core
  import opened Fence
  import opened Worker
  import opened Dispatch

  /** The generation of the agent's live session. */
  function SessionOf(m: Mesh, agent: string): Option<nat> {
    if agent in m.workers then m.workers[agent].session else None
  }

  /** Every agent's session is the one it had, or none, or one made in this step. */
  ghost predicate SessionStep(m: Mesh, m': Mesh) {
    m.next <= m'.next && forall a :: KeptOrMade(m, m', a)
  }

  predicate KeptOrMade(m: Mesh, m': Mesh, a: string) {
    || SessionOf(m', a) == None
    || SessionOf(m', a) == SessionOf(m, a)
    || (SessionOf(m', a) == Some(m.next) && m.next < m'.next)
  }

  /** Nobody's session moved. */
  ghost predicate SessionsStay(m: Mesh, m': Mesh) {
    m.next <= m'.next && forall a :: SessionOf(m', a) == SessionOf(m, a)
  }

  lemma DispatchSessions(m: Mesh, agent: string, link: LinkKey, kind: Kind, token: nat, cost: nat)
    ensures SessionsStay(m, Dispatched(m, agent, link, kind, token, cost))
  {
  }

  lemma SentSessions(m: Mesh, agent: string, link: LinkKey, cost: nat)
    ensures SessionsStay(m, SentCost(m, agent, link, cost))
  {
    DispatchSessions(m, agent, link, Apply, 0, cost);
    hide Dispatched, CanDispatch;
  }

  lemma PingSessions(m: Mesh, agent: string, link: LinkKey)
    ensures SessionsStay(m, PlannedPing(m, agent, link))
  {
    DispatchSessions(m, agent, link, Always, 0, 0);
    hide Dispatched, CanDispatch;
  }

  lemma TestSessions(m: Mesh, agent: string, link: LinkKey)
    ensures SessionsStay(m, PlannedTest(m, agent, link))
  {
    var acquired := m.(next := m.next + 1, leases := Acquired(m.leases, agent, link, FENCE_TTL_SECS, m.now, m.next));
    DispatchSessions(acquired, agent, link, Throughput, m.next, 0);
    hide Dispatched, CanDispatch, Acquired, Blocked, Live;
  }

  lemma {:induction false} SeedSessions(m: Mesh, agent: string, links: seq<LinkKey>, costs: map<LinkKey, nat>)
    ensures SessionsStay(m, Seeded(m, agent, links, costs))
    decreases |links|
  {
    hide SentCost;
    if links != [] {
      var front := links[..|links| - 1];
      SeedSessions(m, agent, front, costs);
      if links[|links| - 1] in costs {
        SentSessions(Seeded(m, agent, front, costs), agent, links[|links| - 1], costs[links[|links| - 1]]);
      }
    }
  }

  lemma ReplySessions(m: Mesh, id: nat)
    requires id in m.streams && m.streams[id].answer.Some?
    ensures SessionsStay(m, Replied(m, id))
  {
    hide SessionsStay, AppliedSent, ApplyFailed, Ended, Released;
    var s := m.streams[id];
    SettleSessions(m, m.workers, s);
    SettleSessions(m, AppliedSent(m.workers, s.agent, s.link, s.cost), s);
    SettleSessions(m, ApplyFailed(m.workers, s.agent, s.link, m.now), s);
  }

  lemma FailSessions(m: Mesh, id: nat)
    requires id in m.streams
    ensures SessionsStay(m, Failed(m, id))
  {
    hide SessionsStay, ApplyFailed, Ended, Released;
    var s := m.streams[id];
    SettleSessions(m, m.workers, s);
    SettleSessions(m, ApplyFailed(m.workers, s.agent, s.link, m.now), s);
  }

  /** Costs taken or given back and the slot released. */
  lemma SettleSessions(m: Mesh, books: Registry, s: Stream)
    requires books in {m.workers, AppliedSent(m.workers, s.agent, s.link, s.cost),
                       ApplyFailed(m.workers, s.agent, s.link, m.now)}
    ensures forall m': Mesh :: m'.workers == Ended(books, s.agent, s.link, s.kind) && m'.next == m.next ==>
              SessionsStay(m, m')
  {
  }

  /** A registration on a connection of its own gets a session of its own; on the
      session the agent has, it keeps it. Other agents keep theirs. */
  lemma RegisterSessions(m: Mesh, agent: string, anew: bool, reported: seq<LinkKey>, costs: map<LinkKey, nat>)
    ensures var m' := RegisteredAgent(m, agent, anew, reported, costs);
            && m.next < m'.next
            && SessionOf(m', agent) == (if anew || SessionOf(m, agent) == None then Some(m.next)
                                        else SessionOf(m, agent))
            && forall a :: a != agent ==> SessionOf(m', a) == SessionOf(m, a)
  {
    SeedSessions(Cleared(m, agent, anew, reported), agent, reported, costs);
    hide Seeded;
  }

  lemma StepKeepsSessions(m: Mesh, a: Action)
    ensures SessionStep(m, After(m, a))
  {
    hide PlannedPing, PlannedTest, SentCost, RegisteredAgent, Replied, Failed;
    match a
    case Register(agent, anew, reported, costs) =>
      RegisterSessions(m, agent, anew, reported, costs);
    case PlanPing(agent, link) =>
      PingSessions(m, agent, link);
    case PlanTest(agent, link) =>
      TestSessions(m, agent, link);
    case PlanCost(agent, link, cost) =>
      SentSessions(m, agent, link, cost);
    case Reply(id) =>
      if id in m.streams && m.streams[id].answer.Some? {
        ReplySessions(m, id);
      }
    case Fail(id) =>
      if id in m.streams {
        FailSessions(m, id);
      }
    case _ =>
  }

  /** What the close of a connection does: the agent is forgotten exactly when it is
      reached on that connection, and nothing else changes. */
  lemma CloseForgetsItsOwn(m: Mesh, agent: string, g: nat)
    ensures After(m, Detach(agent, g))
         == if SessionOf(m, agent) == Some(g) then m.(workers := m.workers - {agent}) else m
  {
  }

  /** A session that is not an agent's now, though its number was given out, never is
      again. */
  lemma {:induction false} OldSessionsStayGone(actions: seq<Action>, more: seq<Action>, agent: string, g: nat)
    requires g < Run(actions).next && SessionOf(Run(actions), agent) != Some(g)
    ensures g < Run(actions + more).next && SessionOf(Run(actions + more), agent) != Some(g)
    decreases |more|
  {
    hide After;
    if more == [] {
      assert actions + more == actions;
    } else {
      var front, last := more[..|more| - 1], more[|more| - 1];
      OldSessionsStayGone(actions, front, agent, g);
      assert (actions + more)[..|actions + more| - 1] == actions + front;
      StepKeepsSessions(Run(actions + front), last);
      assert KeptOrMade(Run(actions + front), Run(actions + more), agent);
    }
  }

  /** In every run, once an agent registered on a new connection, the late close of any
      it was reached on before changes nothing. */
  lemma LateCloseIsIgnored(actions: seq<Action>, agent: string, reported: seq<LinkKey>, costs: map<LinkKey, nat>,
                           more: seq<Action>, g: nat)
    requires g < Run(actions).next
    ensures var end := Run(actions + [Register(agent, true, reported, costs)] + more);
            After(end, Detach(agent, g)) == end
  {
    hide RegisteredAgent;
    var m, again := Run(actions), actions + [Register(agent, true, reported, costs)];
    assert again[..|again| - 1] == actions;
    RegisterSessions(m, agent, true, reported, costs);
    OldSessionsStayGone(again, more, agent, g);
    CloseForgetsItsOwn(Run(again + more), agent, g);
  }
}
