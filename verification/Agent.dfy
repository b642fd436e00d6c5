/** The agent in place (crates/agent/src/agent.rs, `execute` and `refresh`). Whether BIRD
    accepts a cost, and what a test measured, come from outside. */
module Agent {
  import opened Core
  import opened AgentMark
  import Worker
  import Dispatch
  import opened Refresh

  datatype Tier = Always | Throughput

  /** The parts of a probe reply that steer the controller. */
  datatype ProbeReply = ProbeReply(link: LinkKey, token: Option<nat>, busy: bool, blocks: seq<MarkBlock>)

  /** The controller's record of what agent `name` wants is what the agent wants. */
  ghost predicate Recorded(desired: map<string, nat>, m: Dispatch.Mesh, name: string) {
    forall f :: Get(desired, f) == if (name, f) in m.desired then Some(m.desired[(name, f)]) else None
  }

  class Agent {
    var links: seq<Link>
    /** The cost last applied per interface. */
    var desired: map<string, nat>
    /** What BIRD has, per interface. */
    var bird: map<string, nat>
    /** Holds the finished marking blocks. */
    const marker: Marker
    /** What a refresh has yet to put back and which commands are yet to be noted, for
        the specification only. */
    ghost var todo: seq<(string, nat)>
    ghost var taken: map<string, nat>

    ghost function State(): Costs
      reads this
    {
      Costs(links, desired, bird, todo, taken)
    }

    constructor (links: seq<Link>, bird: map<string, nat>, marker: Marker)
      ensures this.links == links && this.bird == bird && this.marker == marker && desired == map[]
      ensures todo == [] && taken == map[]
    {
      this.links, this.bird, this.marker := links, bird, marker;
      desired, todo, taken := map[], [], map[];
    }

    method Find(iface: string) returns (known: bool)
      ensures known <==> Knows(links, iface)
    {
      for i := 0 to |links|
        invariant forall j :: 0 <= j < i ==> links[j].iface != iface
      {
        if links[i].iface == iface {
          return true;
        }
      }
      return false;
    }

    /** The probe arm of `execute`. A throughput command is always answered with its
        own link and token, so the controller's lease ends with it; only an always
        probe for an unknown interface goes unanswered. Blocks ride on always probes. */
    method Probe(tier: Tier, link: LinkKey, token: Option<nat>, busy: bool) returns (reply: Option<ProbeReply>)
      modifies marker`queue
      ensures reply.None? <==> tier == Always && !Knows(links, link.iface)
      ensures reply.Some? ==> reply.value.link == link
      ensures tier == Throughput ==> reply.Some? && reply.value.token == token && reply.value.blocks == []
      ensures reply.Some? ==> (reply.value.busy <==> busy || !Knows(links, link.iface))
      ensures tier == Always && Knows(links, link.iface) ==>
                reply.value.token == None && reply.value.blocks == QueueOf(old(marker.queue), link.iface)
      ensures QueueOf(marker.queue, link.iface)
           == if tier == Always && Knows(links, link.iface) then [] else QueueOf(old(marker.queue), link.iface)
      ensures forall f :: f != link.iface ==> QueueOf(marker.queue, f) == QueueOf(old(marker.queue), f)
    {
      var known := Find(link.iface);
      if !known {
        return if tier == Throughput then Some(ProbeReply(link, token, true, [])) else None;
      }
      if tier == Throughput {
        return Some(ProbeReply(link, token, busy, []));
      }
      var taken := marker.TakeBlocks(link.iface);
      return Some(ProbeReply(link, None, busy, taken));
    }

    /** The apply arm of `execute` up to BIRD's answer. */
    method TakeCost(link: LinkKey, cost: nat, accepts: bool) returns (ok: bool)
      requires link.iface !in taken
      modifies this`bird, this`taken
      ensures ok <==> Knows(links, link.iface) && accepts
      ensures State() == if ok then After(old(State()), Take(link.iface, cost)) else old(State())
    {
      var known := Find(link.iface);
      ok := known && accepts;
      if ok {
        bird := bird[link.iface := cost];
        taken := taken[link.iface := cost];
      }
    }

    /** And after it: the cost is noted as wanted. */
    method NoteCost(link: LinkKey, cost: nat)
      requires link.iface in taken && taken[link.iface] == cost
      modifies this`desired, this`taken
      ensures State() == After(old(State()), Note(link.iface))
    {
      desired := desired[link.iface := cost];
      taken := taken - {link.iface};
    }

    /** Both: the desired cost changes exactly when BIRD took it, and the answer says
        which. */
    method ApplyCost(link: LinkKey, cost: nat, accepts: bool) returns (ok: bool)
      requires link.iface !in taken
      modifies this`desired, this`bird, this`taken
      ensures ok <==> Knows(links, link.iface) && accepts
      ensures desired == if ok then old(desired)[link.iface := cost] else old(desired)
      ensures bird == if ok then old(bird)[link.iface := cost] else old(bird)
      ensures taken == old(taken)
    {
      ok := TakeCost(link, cost, accepts);
      if ok {
        NoteCost(link, cost);
      }
    }

    /** An outstanding apply of this agent, executed: its answer and the cost wanted
        are as the controller's side of the protocol takes them to be. */
    method ExecuteApply(ghost m: Dispatch.Mesh, ghost id: nat, link: LinkKey, cost: nat, accepts: bool)
      returns (ok: bool)
      requires id in m.streams && m.streams[id].kind == Worker.Apply
      requires m.streams[id].link == link && m.streams[id].cost == cost
      requires Recorded(desired, m, m.streams[id].agent) && link.iface !in taken
      modifies this`desired, this`bird, this`taken
      ensures Recorded(desired, Dispatch.Executed(m, id, ok), m.streams[id].agent)
      ensures Dispatch.Executed(m, id, ok).streams[id].answer == Some(ok)
      ensures ok <==> Knows(links, link.iface) && accepts
    {
      ok := ApplyCost(link, cost, accepts);
    }

    /** `refresh` under its lock: forget the desired cost of links that are gone, and
        list every cost BIRD has drifted from, with what it should be. */
    method BeginRefresh(found: seq<Link>) returns (drifted: seq<(string, nat)>)
      requires DistinctLinks(found) && todo == []
      modifies this`links, this`desired, this`todo
      ensures State() == After(old(State()), Begin(found)) && drifted == todo
    {
      desired := map f | f in desired && Knows(found, f) :: desired[f];
      drifted := [];
      for i := 0 to |found|
        invariant drifted == Drifts(found[..i], desired)
      {
        var l := found[i];
        assert found[..i + 1][..i] == found[..i];
        if l.iface in desired && l.cost.Some? && l.cost.value != desired[l.iface] {
          drifted := drifted + [(l.iface, desired[l.iface])];
        }
      }
      assert found[..|found|] == found;
      links := found;
      todo := drifted;
    }

    /** One turn of the loop after it: put the first of the rest back as it was listed. */
    method Reapply(drifted: seq<(string, nat)>, accepts: bool) returns (rest: seq<(string, nat)>)
      requires drifted != [] && drifted == todo
      modifies this`bird, this`todo
      ensures State() == After(old(State()), Redo(accepts)) && rest == todo
    {
      if accepts {
        bird := bird[drifted[0].0 := drifted[0].1];
      }
      rest := drifted[1..];
      todo := rest;
    }
  }
}
