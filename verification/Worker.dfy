/** The agent registry (crates/controller/src/worker.rs): sessions, slots for commands
    in flight, and what the controller believes each agent applied. */
module Worker {
  import opened Core

  datatype Kind = Always | Throughput | Apply

  /** How long a failed apply is left alone. */
  const APPLY_RETRY_SECS: nat := 30

  /** One agent: its links, the generation of its live session, and the bookkeeping
      per link. */
  datatype Worker = Worker(links: seq<LinkKey>, session: Option<nat>,
                           appliedSent: map<LinkKey, nat>, retryAt: map<LinkKey, nat>,
                           lastIssue: map<(LinkKey, Kind), nat>, inFlight: set<(LinkKey, Kind)>)

  const NEW_WORKER: Worker := Worker([], None, map[], map[], map[], {})

  type Registry = map<string, Worker>

  function Get(r: Registry, agent: string): Worker { if agent in r then r[agent] else NEW_WORKER }

  /** A registration is a clean slate for policy; slots and issue times of links the
      agent still reports are kept. */
  function Registered(r: Registry, agent: string, links: seq<LinkKey>): Registry {
    var w := Get(r, agent);
    r[agent := Worker(links, w.session, map[], map[],
                      map k | k in w.lastIssue && k.0 in links :: w.lastIssue[k],
                      set k | k in w.inFlight && k.0 in links)]
  }

  /** Attach a session under a new generation, unless this connection already holds
      the current one. A new session starts with every slot free. */
  function Attached(r: Registry, agent: string, own: Option<nat>, generation: nat): Registry {
    var w := Get(r, agent);
    if own.Some? && w.session == own then r
    else r[agent := w.(session := Some(generation), inFlight := {})]
  }

  function Detached(r: Registry, agent: string, generation: nat): Registry {
    if agent in r && r[agent].session == Some(generation) then r - {agent} else r
  }

  predicate CanBegin(r: Registry, agent: string, link: LinkKey, kind: Kind) {
    agent in r && (link, kind) !in r[agent].inFlight
  }

  function Begun(r: Registry, agent: string, link: LinkKey, kind: Kind): Registry {
    if agent in r then r[agent := r[agent].(inFlight := r[agent].inFlight + {(link, kind)})] else r
  }

  function Ended(r: Registry, agent: string, link: LinkKey, kind: Kind): Registry {
    if agent in r then r[agent := r[agent].(inFlight := r[agent].inFlight - {(link, kind)})] else r
  }

  predicate ProbeIsDue(r: Registry, agent: string, link: LinkKey, kind: Kind, now: nat, interval: nat) {
    agent in r && ((link, kind) in r[agent].lastIssue ==> SatSub(now, r[agent].lastIssue[(link, kind)]) >= interval)
  }

  function Issued(r: Registry, agent: string, link: LinkKey, kind: Kind, now: nat): Registry {
    if agent in r then r[agent := r[agent].(lastIssue := r[agent].lastIssue[(link, kind) := now])] else r
  }

  /** The cost differs from the last one sent, and no failed apply is backing off. */
  predicate ApplyIsDue(r: Registry, agent: string, link: LinkKey, cost: nat, now: nat) {
    && agent in r
    && !(link in r[agent].appliedSent && r[agent].appliedSent[link] == cost)
    && (link in r[agent].retryAt ==> now >= r[agent].retryAt[link])
  }

  function AppliedSent(r: Registry, agent: string, link: LinkKey, cost: nat): Registry {
    if agent in r
    then r[agent := r[agent].(retryAt := r[agent].retryAt - {link},
                              appliedSent := r[agent].appliedSent[link := cost])]
    else r
  }

  function ApplyFailed(r: Registry, agent: string, link: LinkKey, now: nat): Registry {
    if agent in r
    then r[agent := r[agent].(appliedSent := r[agent].appliedSent - {link},
                              retryAt := r[agent].retryAt[link := now + APPLY_RETRY_SECS])]
    else r
  }

  class WorkerRegistry {
    var inner: Registry
    var generation: nat

    constructor ()
      ensures inner == map[] && generation == 0
    {
      inner, generation := map[], 0;
    }

    /** `register`: true when a link is new to the registry. */
    method Register(agent: string, links: seq<LinkKey>) returns (anyNew: bool)
      modifies this`inner
      ensures inner == Registered(old(inner), agent, links)
      ensures anyNew <==> exists i :: 0 <= i < |links| && links[i] !in Get(old(inner), agent).links
    {
      var w := if agent in inner then inner[agent] else NEW_WORKER;
      anyNew := false;
      for i := 0 to |links|
        invariant anyNew <==> exists j :: 0 <= j < i && links[j] !in w.links
        invariant inner == old(inner)
      {
        if links[i] !in w.links {
          anyNew := true;
        }
      }
      w := w.(links := links, appliedSent := map[], retryAt := map[],
              lastIssue := map k | k in w.lastIssue && k.0 in links :: w.lastIssue[k],
              inFlight := set k | k in w.inFlight && k.0 in links);
      inner := inner[agent := w];
    }

    /** `attach`: the generation to detach with, and whether an older session was
        replaced and must be closed. */
    method Attach(agent: string, own: Option<nat>) returns (held: nat, replaced: bool)
      modifies this
      ensures inner == Attached(old(inner), agent, own, old(generation) + 1)
      ensures agent in inner && inner[agent].session == Some(held)
      ensures replaced <==> held == old(generation) + 1 == generation && Get(old(inner), agent).session.Some?
                            && !(own.Some? && Get(old(inner), agent).session == own)
      ensures held != old(generation) + 1 ==> generation == old(generation) && inner == old(inner)
    {
      var w := if agent in inner then inner[agent] else NEW_WORKER;
      inner := inner[agent := w];
      if own.Some? && w.session == own {
        assert agent in old(inner);
        return own.value, false;
      }
      generation := generation + 1;
      replaced := w.session.Some?;
      inner := inner[agent := w.(session := Some(generation), inFlight := {})];
      return generation, replaced;
    }

    /** `detach`: forget the agent unless a newer session replaced this one. */
    method Detach(agent: string, held: nat) returns (evicted: bool)
      modifies this`inner
      ensures inner == Detached(old(inner), agent, held)
      ensures evicted <==> agent in old(inner) && agent !in inner
    {
      if agent in inner && inner[agent].session == Some(held) {
        inner := inner - {agent};
        return true;
      }
      return false;
    }

    /** `begin`: claim the slot of a command about to be dispatched. */
    method Begin(agent: string, link: LinkKey, kind: Kind) returns (claimed: bool)
      modifies this`inner
      ensures claimed <==> CanBegin(old(inner), agent, link, kind)
      ensures inner == Begun(old(inner), agent, link, kind)
    {
      if agent !in inner {
        return false;
      }
      var w := inner[agent];
      claimed := (link, kind) !in w.inFlight;
      inner := inner[agent := w.(inFlight := w.inFlight + {(link, kind)})];
    }

    method End(agent: string, link: LinkKey, kind: Kind)
      modifies this`inner
      ensures inner == Ended(old(inner), agent, link, kind)
    {
      if agent in inner {
        inner := inner[agent := inner[agent].(inFlight := inner[agent].inFlight - {(link, kind)})];
      }
    }

    method MarkIssued(agent: string, link: LinkKey, kind: Kind, now: nat)
      modifies this`inner
      ensures inner == Issued(old(inner), agent, link, kind, now)
    {
      if agent in inner {
        inner := inner[agent := inner[agent].(lastIssue := inner[agent].lastIssue[(link, kind) := now])];
      }
    }

    method SetAppliedSent(agent: string, link: LinkKey, cost: nat)
      modifies this`inner
      ensures inner == AppliedSent(old(inner), agent, link, cost)
    {
      if agent in inner {
        var w := inner[agent];
        inner := inner[agent := w.(retryAt := w.retryAt - {link}, appliedSent := w.appliedSent[link := cost])];
      }
    }

    method NoteApplyFailed(agent: string, link: LinkKey, now: nat)
      modifies this`inner
      ensures inner == ApplyFailed(old(inner), agent, link, now)
    {
      if agent in inner {
        var w := inner[agent];
        inner := inner[agent := w.(appliedSent := w.appliedSent - {link},
                                   retryAt := w.retryAt[link := now + APPLY_RETRY_SECS])];
      }
    }
  }
}
