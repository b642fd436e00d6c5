/** The throughput-test fence (crates/controller/src/fence.rs): soft leases that keep
    two tests off one node. */
module Fence {
  import opened Core

  /** `holder` runs the client, `link.from` and `link.to` are the two nodes occupied. */
  datatype Lease = Lease(holder: string, link: LinkKey, token: nat, issuedAt: nat, ttl: nat) {
    predicate Expired(now: nat) { SatSub(now, issuedAt) >= ttl }

    /** Whether a test on `other` would share a node with this lease. */
    predicate Occupies(other: LinkKey) {
      link.from == other.from || link.from == other.to || link.to == other.from || link.to == other.to
    }
  }

  type Leases = map<LinkKey, Lease>

  function Live(leases: Leases, now: nat): Leases {
    map k | k in leases && !leases[k].Expired(now) :: leases[k]
  }

  predicate Blocked(leases: Leases, link: LinkKey) {
    exists k :: k in leases && leases[k].Occupies(link)
  }

  /** Acquire on these leases: the expired ones go, and a link neither of whose nodes
      is taken gets its lease. */
  function Acquired(leases: Leases, agent: string, link: LinkKey, ttl: nat, now: nat, token: nat): Leases {
    if Blocked(Live(leases, now), link) then Live(leases, now)
    else Live(leases, now)[link := Lease(agent, link, token, now, ttl)]
  }

  /** Release only removes the lease whose token matches. */
  function Released(leases: Leases, link: LinkKey, token: nat): Leases {
    if link in leases && leases[link].token == token then leases - {link} else leases
  }

  /** Leases are filed under their link, and no two share a node. */
  ghost predicate NodeDisjoint(leases: Leases) {
    && (forall k :: k in leases ==> leases[k].link == k)
    && (forall j, k :: j in leases && k in leases && j != k ==> !leases[j].Occupies(k))
  }

  lemma AcquireKeepsDisjoint(leases: Leases, agent: string, link: LinkKey, ttl: nat, now: nat, token: nat)
    requires NodeDisjoint(leases)
    ensures NodeDisjoint(Acquired(leases, agent, link, ttl, now, token))
  {
  }

  /** A release leaves every lease with another token alone. */
  lemma OldTokenFreesNothing(leases: Leases, link: LinkKey, token: nat)
    ensures forall k :: k in leases && (k != link || leases[k].token != token)
              ==> k in Released(leases, link, token) && Released(leases, link, token)[k] == leases[k]
    ensures link in Released(leases, link, token) ==> Released(leases, link, token)[link].token != token
  {
  }

  /** While unexpired, a lease keeps every other test off both its nodes; once it is
      expired or released the nodes are free. */
  lemma GrantedIffNodesFree(leases: Leases, agent: string, link: LinkKey, ttl: nat, now: nat, token: nat)
    requires NodeDisjoint(leases) && forall k :: k in leases ==> leases[k].token != token
    ensures var after := Acquired(leases, agent, link, ttl, now, token);
            (link in after && after[link].token == token)
              <==> forall k :: k in leases && !leases[k].Expired(now) ==> !leases[k].Occupies(link)
  {
    var live := Live(leases, now);
    if Blocked(live, link) {
      var k :| k in live && live[k].Occupies(link);
      assert k in leases && !leases[k].Expired(now);
    } else {
      forall k | k in leases && !leases[k].Expired(now) ensures !leases[k].Occupies(link) {
        assert k in live;
      }
    }
  }

  datatype Grant = Granted(lease: Lease) | Refused(busy: Lease)

  class Fence {
    var leases: Leases

    constructor ()
      ensures leases == map[]
    {
      leases := map[];
    }

    /** `acquire`, with the time and a token never used before. Refused with a live
        lease that occupies one of the endpoints. */
    method Acquire(agent: string, link: LinkKey, ttl: nat, now: nat, token: nat) returns (r: Grant)
      modifies this
      ensures leases == Acquired(old(leases), agent, link, ttl, now, token)
      ensures r.Granted? <==> !Blocked(Live(old(leases), now), link)
      ensures r.Granted? ==> link in leases && leases[link] == r.lease == Lease(agent, link, token, now, ttl)
      ensures r.Refused? ==> r.busy in leases.Values && r.busy.Occupies(link) && !r.busy.Expired(now)
    {
      leases := map k | k in leases && !leases[k].Expired(now) :: leases[k];
      assert leases == Live(old(leases), now);
      var keys := leases.Keys;
      while keys != {}
        invariant keys <= leases.Keys && leases == Live(old(leases), now)
        invariant forall k :: k in leases && k !in keys ==> !leases[k].Occupies(link)
        decreases |keys|
      {
        var k :| k in keys;
        if leases[k].Occupies(link) {
          return Refused(leases[k]);
        }
        keys := keys - {k};
      }
      var lease := Lease(agent, link, token, now, ttl);
      leases := leases[link := lease];
      return Granted(lease);
    }

    /** `release`: true when the token matched. */
    method Release(link: LinkKey, token: nat) returns (released: bool)
      modifies this
      ensures leases == Released(old(leases), link, token)
      ensures released <==> link in old(leases) && old(leases)[link].token == token
    {
      if link in leases && leases[link].token == token {
        leases := leases - {link};
        return true;
      }
      return false;
    }
  }
}
