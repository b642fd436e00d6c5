/** One controller's side of sample replication in place: `take_for_peer`, `push_one`
    and the handling of an exchange (crates/controller/src/gossip.rs) over its store. */
module GossipNode {
  import opened Core
  import opened Samples
  import opened Tsdb
  import opened Replica
  import opened Gossip

  class Node {
    const name: string
    const tsdb: Tsdb
    /** The history, for the specification only. */
    ghost var offers: seq<(LinkKey, Sample)>
    ghost var log: seq<Entry>

    ghost function State(): Member
      reads this, tsdb
    {
      Member(tsdb.Contents(), tsdb.sent, offers, log)
    }

    /** The node is one of the cluster's members and has that member's state. */
    ghost predicate In(c: Cluster)
      reads this, tsdb
    {
      name in c.members && c.members[name] == State()
    }

    constructor (name: string, tsdb: Tsdb)
      requires tsdb.Contents() == NEW_STORE && tsdb.sent == map[]
      ensures this.name == name && this.tsdb == tsdb && State() == NEW_MEMBER
    {
      this.name, this.tsdb := name, tsdb;
      offers, log := [], [];
    }

    /** `append`: a sample measured here or posted by the node's agent. */
    method Append(ghost c: Cluster, link: LinkKey, s: Sample)
      requires In(c)
      modifies this`offers, this`log, tsdb`byLink, tsdb`buckets, tsdb`recent, tsdb`next
      ensures In(Apply(c, Action.Append(name, link, s)))
    {
      ghost var after := Taken(State(), link, s);
      var _ := tsdb.Ingest(link, s);
      offers, log := after.offers, after.log;
    }

    /** `prune`. */
    method Prune(ghost c: Cluster, now: nat)
      requires In(c)
      modifies tsdb`byLink, tsdb`buckets, tsdb`recent
      ensures In(Apply(c, Action.Retention(name, SatSub(now, tsdb.rawRetention), SatSub(now, tsdb.aggRetention))))
    {
      tsdb.Prune(now);
    }

    /** `take_for_peer`: what is newer than the peer's watermark, which stays. */
    method TakeFor(peer: string) returns (samples: seq<(LinkKey, Sample)>, last: nat)
      ensures var push := TakeForPeer(State(), name, peer);
              samples == push.samples && last == push.last
    {
      var mark := tsdb.SentWatermark(peer);
      var delta;
      delta, last := tsdb.TakeDelta(mark, DELTA_LIMIT);
      samples := [];
      for i := 0 to |delta|
        invariant samples == Payload(delta[..i])
      {
        samples := samples + [(delta[i].link, delta[i].s)];
      }
      assert delta[..|delta|] == delta;
    }

    /** `push_one` up to its await: the request goes out, and nothing is recorded. */
    method BeginPush(ghost c: Cluster, peer: string) returns (samples: seq<(LinkKey, Sample)>, last: nat)
      requires In(c) && peer in c.members && peer != name && (name, peer) !in c.rounds
      ensures var push := Push(name, peer, Mark(State(), peer), last, samples);
              && Apply(c, Begin(name, peer)) == c.(rounds := c.rounds[(name, peer) := push], wires := c.wires + {push})
              && In(Apply(c, Begin(name, peer)))
    {
      samples, last := TakeFor(peer);
    }

    /** `push_one` after its await: an acknowledged request moves the peer's watermark
        to its last entry, a failed one leaves it where it is. */
    method EndPush(ghost c: Cluster, peer: string, last: nat, acknowledged: bool)
      requires In(c) && (name, peer) in c.rounds && c.rounds[(name, peer)].last == last
      requires acknowledged ==> c.rounds[(name, peer)] in c.delivered
      modifies tsdb`sent
      ensures In(Apply(c, if acknowledged then Acked(name, peer) else Failed(name, peer)))
      ensures var c' := Apply(c, if acknowledged then Acked(name, peer) else Failed(name, peer));
              c'.rounds == c.rounds - {(name, peer)} && c'.wires == c.wires && c'.delivered == c.delivered
      ensures forall q :: q != peer ==> Mark(State(), q) == Mark(old(State()), q)
      ensures Mark(State(), peer) == if acknowledged then last else Mark(old(State()), peer)
    {
      if acknowledged {
        tsdb.NoteSent(peer, last);
      }
    }

    /** The peer's side of an exchange: its samples are merged, in order. */
    method Receive(ghost c: Cluster, ghost push: Push, samples: seq<(LinkKey, Sample)>)
      requires In(c) && push in c.wires && push.to == name && push.samples == samples
      modifies this`offers, this`log, tsdb`byLink, tsdb`buckets, tsdb`recent, tsdb`next
      ensures In(Apply(c, Deliver(push)))
    {
      ghost var after := TakenAll(State(), samples);
      TakenAllMergesDelta(State(), samples);
      tsdb.MergeDelta(samples);
      offers, log := after.offers, after.log;
    }
  }
}
