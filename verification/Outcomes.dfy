/** What the end of a command and a registration leave behind
    (crates/controller/src/session.rs, `handle_reply`, `on_failure` and `register`), said of
    the registry, the leases and the outstanding commands alone. */
module Outcomes {
  import opened Core
  import opened Fence
  import opened Worker
  import opened Dispatch

  // ── The end of a command ─────────────────────────────────────────────────

  /** The agent's entry once its command ended: the slot is free; a cost the agent took is
      the one believed sent, one it did not is forgotten and left alone for 30 s. */
  predicate TellsWorker(w: Worker, w': Worker, s: Stream, took: bool, now: nat) {
    && w'.links == w.links && w'.session == w.session && w'.lastIssue == w.lastIssue
    && w'.inFlight == w.inFlight - {(s.link, s.kind)}
    && (s.kind != Apply ==> w'.appliedSent == w.appliedSent && w'.retryAt == w.retryAt)
    && (s.kind == Apply && took ==>
          w'.appliedSent == w.appliedSent[s.link := s.cost] && w'.retryAt == w.retryAt - {s.link})
    && (s.kind == Apply && !took ==>
          w'.appliedSent == w.appliedSent - {s.link} && w'.retryAt == w.retryAt[s.link := now + 30])
  }

  /** A test takes its own lease with it, if that still is its own. */
  ghost predicate TellsLeases(leases: Leases, leases': Leases, s: Stream) {
    && (forall k :: k in leases' <==>
          k in leases && !(s.kind == Throughput && k == s.link && leases[k].token == s.token))
    && (forall k :: k in leases' ==> leases'[k] == leases[k])
  }

  ghost predicate TellsEnd(m: Mesh, m': Mesh, id: nat, s: Stream, took: bool) {
    && m'.now == m.now && m'.next == m.next && m'.desired == m.desired
    && m'.streams == m.streams - {id}
    && TellsLeases(m.leases, m'.leases, s)
    && m'.failed == (if s.kind == Apply && !took then m.failed[(s.agent, s.link) := m.now] else m.failed)
    && TellsBooks(m.workers, m'.workers, s, took, m.now)
  }

  lemma ReleaseTells(leases: Leases, s: Stream)
    requires s.kind == Throughput
    ensures TellsLeases(leases, Released(leases, s.link, s.token), s)
  {
  }

  ghost predicate TellsBooks(r: Registry, r': Registry, s: Stream, took: bool, now: nat) {
    && r'.Keys == r.Keys
    && (forall a :: a in r && a != s.agent ==> r'[a] == r[a])
    && (s.agent in r ==> TellsWorker(r[s.agent], r'[s.agent], s, took, now))
  }

  lemma EndBooks(r: Registry, s: Stream, now: nat)
    ensures s.kind != Apply ==> forall took :: TellsBooks(r, Ended(r, s.agent, s.link, s.kind), s, took, now)
    ensures s.kind == Apply ==>
              TellsBooks(r, Ended(AppliedSent(r, s.agent, s.link, s.cost), s.agent, s.link, s.kind), s, true, now)
    ensures s.kind == Apply ==>
              TellsBooks(r, Ended(ApplyFailed(r, s.agent, s.link, now), s.agent, s.link, s.kind), s, false, now)
  {
  }

  /** A reply leaves exactly this. */
  lemma ReplyTells(m: Mesh, id: nat)
    requires id in m.streams && m.streams[id].answer.Some?
    ensures TellsEnd(m, Replied(m, id), id, m.streams[id], m.streams[id].answer.value)
  {
    hide Released, TellsBooks, Ended, AppliedSent, ApplyFailed;
    var s := m.streams[id];
    EndBooks(m.workers, s, m.now);
    if s.kind == Throughput {
      ReleaseTells(m.leases, s);
    }
  }

  /** So does a failure, whose command took nothing. */
  lemma FailTells(m: Mesh, id: nat)
    requires id in m.streams
    ensures TellsEnd(m, Failed(m, id), id, m.streams[id], false)
  {
    hide Released, TellsBooks, Ended, AppliedSent, ApplyFailed;
    var s := m.streams[id];
    EndBooks(m.workers, s, m.now);
    if s.kind == Throughput {
      ReleaseTells(m.leases, s);
    }
  }

  /** An agent that answers well to an apply wants its cost from then on; nothing else an
      agent does changes what any agent wants. */
  lemma ExecuteTells(m: Mesh, id: nat, ok: bool)
    requires id in m.streams
    ensures var (m', s) := (Executed(m, id, ok), m.streams[id]);
            && m' == m.(streams := m'.streams, desired := m'.desired)
            && m'.streams.Keys == m.streams.Keys && m'.streams[id] == s.(answer := Some(ok))
            && (forall i :: i in m.streams && i != id ==> m'.streams[i] == m.streams[i])
            && m'.desired == if s.kind == Apply && ok then m.desired[(s.agent, s.link.iface) := s.cost] else m.desired
  {
  }

  // ── A registration ───────────────────────────────────────────────────────

  /** The costs sent to an agent of its links so far. */
  ghost predicate TellsSeeds(m: Mesh, m': Mesh, agent: string, links: seq<LinkKey>, costs: map<LinkKey, nat>)
    requires agent in m.workers
  {
    && agent in m'.workers
    && var w, w' := m.workers[agent], m'.workers[agent];
       && m' == m.(next := m'.next, workers := m.workers[agent := w'], streams := m'.streams)
       && m.next <= m'.next && StreamsNumbered(m')
       && w' == w.(appliedSent := w'.appliedSent, retryAt := w'.retryAt, inFlight := w'.inFlight)
       && (forall l :: SeedTold(m, m', agent, links, costs, l))
       && (forall slot :: slot in w'.inFlight <==>
             slot in w.inFlight || (slot.1 == Apply && Seeds(w, links, costs, slot.0)))
       && OnlySeeds(m, m', w, agent, links, costs)
  }

  /** The commands out besides those before are one seed a link. */
  ghost predicate OnlySeeds(m: Mesh, m': Mesh, w: Worker, agent: string, links: seq<LinkKey>,
                            costs: map<LinkKey, nat>)
  {
    && (forall id :: id in m.streams ==> id in m'.streams && m'.streams[id] == m.streams[id])
    && (forall id :: id in m'.streams && id !in m.streams ==>
          m.next <= id < m'.next && IsSeed(m'.streams[id], w, agent, links, costs))
    && (forall i, j :: i in m'.streams && j in m'.streams && i !in m.streams && j !in m.streams && i != j ==>
          m'.streams[i].link != m'.streams[j].link)
  }

  /** The link is reported, its cost known, and no apply is out on it. */
  predicate Seeds(w: Worker, links: seq<LinkKey>, costs: map<LinkKey, nat>, link: LinkKey) {
    w.session.Some? && link in links && link in costs && (link, Apply) !in w.inFlight
  }

  predicate IsSeed(s: Stream, w: Worker, agent: string, links: seq<LinkKey>, costs: map<LinkKey, nat>) {
    Seeds(w, links, costs, s.link) && s == Stream(agent, s.link, Apply, 0, costs[s.link], None)
  }

  /** A seeded link's cost is out and believed sent; another link's books stay. */
  ghost predicate SeedTold(m: Mesh, m': Mesh, agent: string, links: seq<LinkKey>, costs: map<LinkKey, nat>, l: LinkKey)
    requires agent in m.workers && agent in m'.workers
  {
    var w, w' := m.workers[agent], m'.workers[agent];
    if Seeds(w, links, costs, l) then
      && l in w'.appliedSent && w'.appliedSent[l] == costs[l] && l !in w'.retryAt
      && exists id :: id in m'.streams && id !in m.streams && m'.streams[id].link == l
    else
      && (l in w'.appliedSent <==> l in w.appliedSent)
      && (l in w.appliedSent ==> w'.appliedSent[l] == w.appliedSent[l])
      && (l in w'.retryAt <==> l in w.retryAt)
      && (l in w.retryAt ==> w'.retryAt[l] == w.retryAt[l])
  }

  lemma NoSeeds(m: Mesh, agent: string, costs: map<LinkKey, nat>)
    requires agent in m.workers && StreamsNumbered(m)
    ensures TellsSeeds(m, m, agent, [], costs)
  {
    assert m == m.(workers := m.workers[agent := m.workers[agent]]);
  }

  /** A link reported again, without a known cost, or with a command out seeds nothing more. */
  lemma SameSeeds(m: Mesh, m': Mesh, agent: string, front: seq<LinkKey>, links: seq<LinkKey>, costs: map<LinkKey, nat>)
    requires agent in m.workers && TellsSeeds(m, m', agent, front, costs)
    requires forall l :: Seeds(m.workers[agent], links, costs, l) == Seeds(m.workers[agent], front, costs, l)
    ensures TellsSeeds(m, m', agent, links, costs)
  {
    hide Seeds, StreamsNumbered;
    forall l ensures SeedTold(m, m', agent, links, costs, l) {
      assert SeedTold(m, m', agent, front, costs, l);
    }
  }

  /** One cost sent: its stream, and its agent's entry. */
  predicate Sends(m: Mesh, m': Mesh, agent: string, link: LinkKey, cost: nat)
    requires agent in m.workers
  {
    var w := m.workers[agent];
    var w' := w.(appliedSent := w.appliedSent[link := cost], retryAt := w.retryAt - {link},
                 inFlight := w.inFlight + {(link, Apply)});
    m' == m.(next := m.next + 1, workers := m.workers[agent := w'],
             streams := m.streams[m.next := Stream(agent, link, Apply, 0, cost, None)])
  }

  lemma SentSends(m: Mesh, agent: string, link: LinkKey, cost: nat)
    requires CanDispatch(m, agent, link, Apply)
    ensures Sends(m, SentCost(m, agent, link, cost), agent, link, cost)
  {
  }

  lemma OneTold(m: Mesh, before: Mesh, m': Mesh, agent: string, front: seq<LinkKey>, link: LinkKey,
                costs: map<LinkKey, nat>, l: LinkKey)
    requires agent in m.workers && TellsSeeds(m, before, agent, front, costs)
    requires Seeds(m.workers[agent], front + [link], costs, link) && Sends(before, m', agent, link, costs[link])
    requires !Seeds(m.workers[agent], front, costs, link)
    ensures SeedTold(m, m', agent, front + [link], costs, l)
  {
    assert SeedTold(m, before, agent, front, costs, l);
    if l == link {
      assert m'.streams[before.next].link == l;
    } else if Seeds(m.workers[agent], front, costs, l) {
      var id :| id in before.streams && id !in m.streams && before.streams[id].link == l;
      assert m'.streams[id].link == l;
    }
  }

  lemma SeedsMore(w: Worker, front: seq<LinkKey>, link: LinkKey, costs: map<LinkKey, nat>)
    requires Seeds(w, front + [link], costs, link)
    ensures forall l :: Seeds(w, front + [link], costs, l) == (l == link || Seeds(w, front, costs, l))
  {
  }

  lemma OneMoreSeed(m: Mesh, before: Mesh, m': Mesh, w: Worker, agent: string, front: seq<LinkKey>, link: LinkKey,
                    costs: map<LinkKey, nat>)
    requires OnlySeeds(m, before, w, agent, front, costs) && StreamsNumbered(before) && m.next <= before.next
    requires Seeds(w, front + [link], costs, link) && !Seeds(w, front, costs, link)
    requires m'.streams == before.streams[before.next := Stream(agent, link, Apply, 0, costs[link], None)]
    requires m'.next == before.next + 1
    ensures OnlySeeds(m, m', w, agent, front + [link], costs) && StreamsNumbered(m')
  {
    hide Seeds;
    SeedsMore(w, front, link, costs);
    var links := front + [link];
    assert Seeds(w, links, costs, link) && m.next <= before.next;
    forall id | id in m'.streams && id !in m.streams
      ensures m.next <= id < m'.next && IsSeed(m'.streams[id], w, agent, links, costs)
    {
      assert id != before.next ==> IsSeed(before.streams[id], w, agent, front, costs);
    }
    forall i, j | i in m'.streams && j in m'.streams && i !in m.streams && j !in m.streams && i != j
      ensures m'.streams[i].link != m'.streams[j].link
    {
      assert i != before.next ==> IsSeed(before.streams[i], w, agent, front, costs);
      assert j != before.next ==> IsSeed(before.streams[j], w, agent, front, costs);
    }
  }

  lemma OneSeed(m: Mesh, before: Mesh, agent: string, front: seq<LinkKey>, link: LinkKey, costs: map<LinkKey, nat>)
    requires agent in m.workers && TellsSeeds(m, before, agent, front, costs)
    requires link in costs && CanDispatch(before, agent, link, Apply)
    ensures TellsSeeds(m, SentCost(before, agent, link, costs[link]), agent, front + [link], costs)
  {
    hide SeedTold, SentCost, OnlySeeds;
    var w, links, m' := m.workers[agent], front + [link], SentCost(before, agent, link, costs[link]);
    SentSends(before, agent, link, costs[link]);
    forall l ensures Seeds(w, links, costs, l) == (l == link || Seeds(w, front, costs, l)) {}
    assert !Seeds(w, front, costs, link);
    forall l ensures SeedTold(m, m', agent, links, costs, l) {
      OneTold(m, before, m', agent, front, link, costs, l);
    }
    OneMoreSeed(m, before, m', w, agent, front, link, costs);
    hide Seeds, StreamsNumbered;
    assert m' == m.(next := m'.next, workers := m.workers[agent := m'.workers[agent]], streams := m'.streams);
  }

  lemma {:induction false} SeedTells(m: Mesh, agent: string, links: seq<LinkKey>, costs: map<LinkKey, nat>)
    requires agent in m.workers && StreamsNumbered(m)
    ensures TellsSeeds(m, Seeded(m, agent, links, costs), agent, links, costs)
    decreases |links|
  {
    hide TellsSeeds, SentCost, CanDispatch;
    if links == [] {
      NoSeeds(m, agent, costs);
    } else {
      var front, link := links[..|links| - 1], links[|links| - 1];
      var before := Seeded(m, agent, front, costs);
      assert links == front + [link];
      SeedTells(m, agent, front, costs);
      if link in costs && CanDispatch(before, agent, link, Apply) {
        OneSeed(m, before, agent, front, link, costs);
      } else {
        NotSeeded(m, before, agent, front, link, costs);
        SameSeeds(m, before, agent, front, links, costs);
        if link in costs {
          RefusedStays(before, agent, link, costs);
        }
      }
    }
  }

  lemma RefusedStays(m: Mesh, agent: string, link: LinkKey, costs: map<LinkKey, nat>)
    requires link in costs && !CanDispatch(m, agent, link, Apply)
    ensures SentCost(m, agent, link, costs[link]) == m
  {
  }

  lemma NotSeeded(m: Mesh, before: Mesh, agent: string, front: seq<LinkKey>, link: LinkKey, costs: map<LinkKey, nat>)
    requires agent in m.workers && TellsSeeds(m, before, agent, front, costs)
    requires link !in costs || !CanDispatch(before, agent, link, Apply)
    ensures forall l :: Seeds(m.workers[agent], front + [link], costs, l) == Seeds(m.workers[agent], front, costs, l)
  {
  }

  /** An agent's entry as it registers: its report, a session, no cost believed sent and no
      back-off; on the session it had, the commands out and issue times of the links it
      still reports. */
  ghost predicate Enters(m: Mesh, b: Worker, agent: string, anew: bool, reported: seq<LinkKey>) {
    var kept := !anew && agent in m.workers && m.workers[agent].session.Some?;
    && b.links == reported && b.appliedSent == map[] && b.retryAt == map[]
    && b.session == (if kept then m.workers[agent].session else Some(m.next))
    && (forall slot :: slot in b.inFlight <==> kept && slot in m.workers[agent].inFlight && slot.0 in reported)
    && (forall slot :: slot in b.lastIssue <==>
          agent in m.workers && slot in m.workers[agent].lastIssue && slot.0 in reported)
    && (forall slot :: slot in b.lastIssue ==> b.lastIssue[slot] == m.workers[agent].lastIssue[slot])
  }

  /** A registration: the agent enters, its failures are forgotten, and every link it
      reports whose cost is known is sent that cost, unless one is out on it. */
  lemma RegisterTells(m: Mesh, agent: string, anew: bool, reported: seq<LinkKey>, costs: map<LinkKey, nat>)
    requires StreamsNumbered(m)
    ensures var b := Cleared(m, agent, anew, reported);
            && agent in b.workers && Enters(m, b.workers[agent], agent, anew, reported)
            && b == m.(next := m.next + 1, workers := m.workers[agent := b.workers[agent]], failed := b.failed)
            && (forall k :: k in b.failed <==> k in m.failed && k.0 != agent)
            && (forall k :: k in b.failed ==> b.failed[k] == m.failed[k])
            && TellsSeeds(b, RegisteredAgent(m, agent, anew, reported, costs), agent, reported, costs)
  {
    hide TellsSeeds, Seeded;
    SeedTells(Cleared(m, agent, anew, reported), agent, reported, costs);
  }
}
