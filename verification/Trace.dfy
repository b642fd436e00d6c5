/** The ECMP trace walker (crates/controller/src/trace.rs): a breadth-first walk over a
    snapshot of every node's next hops. */
module Trace {
  import opened Core

  const HOP_CAP: nat := 24

  /** A next hop as the agent reports it; its cost and protocol play no part. */
  datatype NextHop = Dev(iface: Option<string>) | Via(addr: Option<string>, iface: Option<string>)

  /** What next hops are deduplicated by: an unset part counts as an empty one. */
  datatype Key = DevKey(iface: string) | ViaKey(addr: string, iface: string)

  /** The mesh at one moment: the routes each node would answer with (a node without
      an entry does not answer), and the links each registered node owns. */
  datatype Snapshot = Snapshot(answers: map<string, seq<seq<NextHop>>>, links: map<string, seq<LinkKey>>)

  /** One row of the result. */
  datatype Edge =
    | CapReached(depth: nat, node: string)
    | NoAnswer(depth: nat, node: string)
    | DeadEnd(depth: nat, node: string)
    | Reached(depth: nat, node: string)
    | Towards(depth: nat, node: string, iface: Option<string>, peer: Option<string>)

  function KeyOf(nh: NextHop): Key {
    match nh
    case Dev(iface) => DevKey(iface.GetOr(""))
    case Via(addr, iface) => ViaKey(addr.GetOr(""), iface.GetOr(""))
  }

  // ── Next hops ────────────────────────────────────────────────────────────

  function Flat(routes: seq<seq<NextHop>>): seq<NextHop>
    decreases |routes|
  {
    if routes == [] then [] else Flat(routes[..|routes| - 1]) + routes[|routes| - 1]
  }

  function Keys(hops: seq<NextHop>): set<Key> { set i | 0 <= i < |hops| :: KeyOf(hops[i]) }

  /** The first next hop of every key, in order. */
  function Deduped(hops: seq<NextHop>): seq<NextHop>
    decreases |hops|
  {
    if hops == [] then []
    else
      var front, last := Deduped(hops[..|hops| - 1]), hops[|hops| - 1];
      if KeyOf(last) in Keys(front) then front else front + [last]
  }

  /** Deduplication drops repeats only: every next hop keeps one of its key. */
  lemma {:induction false} DedupedCovers(hops: seq<NextHop>)
    ensures Keys(Deduped(hops)) == Keys(hops)
    ensures forall h :: h in Deduped(hops) ==> h in hops
    ensures forall i, j :: 0 <= i < j < |Deduped(hops)| ==> KeyOf(Deduped(hops)[i]) != KeyOf(Deduped(hops)[j])
    decreases |hops|
  {
    hide KeyOf, Keys;
    if hops == [] {
      assert Deduped(hops) == hops;
    } else {
      var before, last := hops[..|hops| - 1], hops[|hops| - 1];
      DedupedCovers(before);
      assert hops == before + [last];
      KeysMore(before, last);
      KeysMore(Deduped(before), last);
    }
  }

  lemma KeysMore(hops: seq<NextHop>, h: NextHop)
    ensures Keys(hops + [h]) == Keys(hops) + {KeyOf(h)}
    ensures forall i :: 0 <= i < |hops| ==> KeyOf(hops[i]) in Keys(hops)
  {
    var all := hops + [h];
    assert all[|hops|] == h;
    assert forall i :: 0 <= i < |hops| ==> all[i] == hops[i];
  }

  /** `all_next_hops`. */
  method AllNextHops(routes: seq<seq<NextHop>>) returns (out: seq<NextHop>)
    ensures out == Deduped(Flat(routes))
  {
    out := [];
    var seen: set<Key> := {};
    for i := 0 to |routes|
      invariant out == Deduped(Flat(routes[..i])) && seen == Keys(out)
    {
      var flat := Flat(routes[..i]);
      assert flat + routes[i][..0] == flat;
      for j := 0 to |routes[i]|
        invariant out == Deduped(flat + routes[i][..j]) && seen == Keys(out)
      {
        var nh := routes[i][j];
        var all := flat + routes[i][..j + 1];
        assert all[..|all| - 1] == flat + routes[i][..j] && all[|all| - 1] == nh;
        KeysMore(out, nh);
        if KeyOf(nh) !in seen {
          seen := seen + {KeyOf(nh)};
          out := out + [nh];
        }
      }
      assert flat + routes[i][..|routes[i]|] == Flat(routes[..i + 1]) by {
        assert routes[..i + 1][..i] == routes[..i] && routes[i][..|routes[i]|] == routes[i];
      }
    }
    assert routes[..|routes|] == routes;
  }

  /** `peer_for_egress`: where the node's first link on the interface leads. */
  function PeerOn(links: seq<LinkKey>, iface: string): Option<string> {
    if links == [] then None
    else if links[0].iface == iface then Some(links[0].to)
    else PeerOn(links[1..], iface)
  }

  function PeerForEgress(net: Snapshot, node: string, iface: string): Option<string> {
    if node in net.links then PeerOn(net.links[node], iface) else None
  }

  /** The egress a next hop names; an empty one counts as unset. */
  function Egress(nh: NextHop): Option<string> {
    if nh.Via? && nh.iface.Some? && nh.iface.value != "" then nh.iface else None
  }

  function Peer(net: Snapshot, node: string, nh: NextHop): Option<string> {
    if Egress(nh).Some? then PeerForEgress(net, node, Egress(nh).value) else None
  }

  function Hops(net: Snapshot, node: string): seq<NextHop> {
    if node in net.answers then Deduped(Flat(net.answers[node])) else []
  }

  function PeersOf(net: Snapshot, node: string, hops: seq<NextHop>): set<string> {
    set i | 0 <= i < |hops| && Peer(net, node, hops[i]).Some? :: Peer(net, node, hops[i]).value
  }

  /** The nodes one hop away. */
  function Next(net: Snapshot, node: string): set<string> { PeersOf(net, node, Hops(net, node)) }

  /** Where a node answers that the destination is its own. */
  predicate Arrives(net: Snapshot, node: string) {
    exists i :: 0 <= i < |Hops(net, node)| && Hops(net, node)[i].Dev?
  }

  lemma {:induction false} FlatHasEveryHop(routes: seq<seq<NextHop>>, i: nat)
    requires i < |routes|
    ensures forall h :: h in routes[i] ==> h in Flat(routes)
    decreases |routes|
  {
    if i < |routes| - 1 {
      FlatHasEveryHop(routes[..|routes| - 1], i);
    }
  }

  /** Flattening and deduplication lose no branch: any next hop of any reported route
      leads where a kept one does. */
  lemma EveryNextHopCounts(net: Snapshot, node: string, i: nat, nh: NextHop)
    requires node in net.answers && i < |net.answers[node]| && nh in net.answers[node][i]
    ensures nh.Dev? ==> Arrives(net, node)
    ensures Peer(net, node, nh).Some? ==> Peer(net, node, nh).value in Next(net, node)
  {
    FlatHasEveryHop(net.answers[node], i);
    var all := Flat(net.answers[node]);
    DedupedCovers(all);
    var k :| 0 <= k < |all| && all[k] == nh;
    assert KeyOf(nh) in Keys(Deduped(all));
    var j :| 0 <= j < |Deduped(all)| && KeyOf(Deduped(all)[j]) == KeyOf(nh);
    var kept := Hops(net, node)[j];
    assert Egress(kept) == Egress(nh);
  }

  /** An egress leads to the far end of the node's first link on it. */
  lemma {:induction false} PeerOnIsFirst(links: seq<LinkKey>, iface: string)
    ensures match PeerOn(links, iface)
            case None => forall i :: 0 <= i < |links| ==> links[i].iface != iface
            case Some(p) => exists i :: 0 <= i < |links| && links[i].iface == iface && links[i].to == p
                              && forall j :: 0 <= j < i ==> links[j].iface != iface
  {
    if links != [] && links[0].iface != iface {
      var rest := links[1..];
      PeerOnIsFirst(rest, iface);
      assert forall i :: 0 <= i < |rest| ==> rest[i] == links[i + 1];
      if PeerOn(rest, iface).Some? {
        var i :| 0 <= i < |rest| && rest[i].iface == iface && rest[i].to == PeerOn(rest, iface).value
          && forall j :: 0 <= j < i ==> rest[j].iface != iface;
        forall j | 0 <= j < i + 1 ensures links[j].iface != iface {
          assert j > 0 ==> rest[j - 1] == links[j];
        }
        assert links[i + 1].iface == iface;
      } else {
        forall i | 0 <= i < |links| ensures links[i].iface != iface {
          assert i > 0 ==> rest[i - 1] == links[i];
        }
      }
    }
  }

  // ── Distances ────────────────────────────────────────────────────────────

  /** The nodes within k hops of the source. */
  function Within(net: Snapshot, from: string, k: nat): set<string> {
    if k == 0 then {from}
    else Within(net, from, k - 1) + set n, m | n in Within(net, from, k - 1) && m in Next(net, n) :: m
  }

  predicate IsDistance(net: Snapshot, from: string, node: string, k: nat) {
    node in Within(net, from, k) && (k > 0 ==> node !in Within(net, from, k - 1))
  }

  lemma {:induction false} WithinGrows(net: Snapshot, from: string, j: nat, k: nat)
    requires j <= k
    ensures Within(net, from, j) <= Within(net, from, k)
    decreases k
  {
    if j < k {
      WithinGrows(net, from, j, k - 1);
    }
  }

  lemma DistanceIsUnique(net: Snapshot, from: string, node: string, j: nat, k: nat)
    requires IsDistance(net, from, node, j) && IsDistance(net, from, node, k)
    ensures j == k
  {
    hide Within;
    if j < k {
      WithinGrows(net, from, j, k - 1);
    } else if k < j {
      WithinGrows(net, from, k, j - 1);
    }
  }

  // ── The walk ─────────────────────────────────────────────────────────────

  /** The rows of one expanded node. */
  function HopRows(net: Snapshot, node: string, depth: nat, hops: seq<NextHop>): seq<Edge> {
    seq(|hops|, i requires 0 <= i < |hops| =>
      if hops[i].Dev? then Reached(depth, node)
      else Towards(depth, node, Egress(hops[i]), Peer(net, node, hops[i])))
  }

  function RowsOf(net: Snapshot, node: string, depth: nat): seq<Edge> {
    if depth >= HOP_CAP then [CapReached(depth, node)]
    else if node !in net.answers then [NoAnswer(depth, node)]
    else if Hops(net, node) == [] then [DeadEnd(depth, node)]
    else HopRows(net, node, depth, Hops(net, node))
  }

  function Rows(net: Snapshot, order: seq<(string, nat)>): seq<Edge>
    decreases |order|
  {
    if order == [] then []
    else Rows(net, order[..|order| - 1]) + RowsOf(net, order[|order| - 1].0, order[|order| - 1].1)
  }

  function Nodes(order: seq<(string, nat)>): set<string> { set i | 0 <= i < |order| :: order[i].0 }

  predicate Distinct(order: seq<(string, nat)>) {
    forall i, j :: 0 <= i < j < |order| ==> order[i].0 != order[j].0
  }

  /** Every node a walk from here can name. */
  function Universe(net: Snapshot, from: string): set<string> {
    {from} + set n, i | n in net.links && 0 <= i < |net.links[n]| :: net.links[n][i].to
  }

  lemma {:induction false} PeerOnIsLinked(links: seq<LinkKey>, iface: string)
    ensures PeerOn(links, iface).Some? ==> exists i :: 0 <= i < |links| && links[i].to == PeerOn(links, iface).value
  {
    if links != [] && links[0].iface != iface {
      PeerOnIsLinked(links[1..], iface);
      if PeerOn(links[1..], iface).Some? {
        var i :| 0 <= i < |links[1..]| && links[1..][i].to == PeerOn(links[1..], iface).value;
        assert links[i + 1].to == PeerOn(links, iface).value;
      }
    }
  }

  lemma PeersInUniverse(net: Snapshot, from: string, node: string, hops: seq<NextHop>)
    ensures PeersOf(net, node, hops) <= Universe(net, from)
  {
    forall p | p in PeersOf(net, node, hops) ensures p in Universe(net, from) {
      var i :| 0 <= i < |hops| && Peer(net, node, hops[i]) == Some(p);
      PeerOnIsLinked(net.links[node], Egress(hops[i]).value);
    }
  }

  /** The work list: distinct visited nodes, nearest first, at most two depths. */
  ghost predicate FrontierOk(frontier: seq<(string, nat)>, visited: set<string>) {
    && Distinct(frontier) && Nodes(frontier) <= visited
    && (forall i :: 0 <= i < |frontier| ==> frontier[i].1 <= HOP_CAP)
    && (forall i, j :: 0 <= i < j < |frontier| ==> frontier[i].1 <= frontier[j].1 <= frontier[i].1 + 1)
  }

  /** What the walk has done: `order` are the nodes taken off the list with their depths. */
  ghost predicate WalkInv(net: Snapshot, from: string, order: seq<(string, nat)>,
                          frontier: seq<(string, nat)>, visited: set<string>)
  {
    && FrontierOk(frontier, visited)
    && Distinct(order) && Nodes(order) == visited - Nodes(frontier)
    && from in visited
    && (forall i :: 0 <= i < |order| ==> IsDistance(net, from, order[i].0, order[i].1) && order[i].1 <= HOP_CAP)
    && (forall i :: 0 <= i < |frontier| ==> IsDistance(net, from, frontier[i].0, frontier[i].1))
    && (forall i :: 0 <= i < |order| && order[i].1 < HOP_CAP ==> Next(net, order[i].0) <= visited)
    && (forall i, j :: 0 <= i < |order| && 0 <= j < |frontier| ==> order[i].1 <= frontier[j].1)
    && (frontier != [] ==> Within(net, from, frontier[0].1) <= visited)
  }

  // ── One node off the list ────────────────────────────────────────────────

  /** What expanding a node adds to the list. */
  ghost predicate Adds(added: seq<(string, nat)>, peers: set<string>, visited: set<string>, depth: nat) {
    && Distinct(added) && Nodes(added) == peers - visited
    && forall i :: 0 <= i < |added| ==> added[i].1 == depth
  }

  /** The peers a popped node leads to: none at the hop cap. */
  function Expanded(net: Snapshot, node: string, depth: nat): set<string> {
    if depth < HOP_CAP then Next(net, node) else {}
  }

  lemma NodesJoin(a: seq<(string, nat)>, b: seq<(string, nat)>)
    ensures Nodes(a + b) == Nodes(a) + Nodes(b)
  {
    var all := a + b;
    forall n ensures n in Nodes(all) <==> n in Nodes(a) || n in Nodes(b) {
      if n in Nodes(a) {
        var i :| 0 <= i < |a| && a[i].0 == n;
        assert all[i].0 == n;
      }
      if n in Nodes(b) {
        var i :| 0 <= i < |b| && b[i].0 == n;
        assert all[|a| + i].0 == n;
      }
    }
  }

  lemma NodesHead(frontier: seq<(string, nat)>)
    requires frontier != [] && Distinct(frontier)
    ensures Nodes(frontier) == {frontier[0].0} + Nodes(frontier[1..]) && frontier[0].0 !in Nodes(frontier[1..])
  {
  }

  lemma DistinctJoin(a: seq<(string, nat)>, b: seq<(string, nat)>)
    requires Distinct(a) && Distinct(b) && Nodes(a) !! Nodes(b)
    ensures Distinct(a + b)
  {
    assert forall i :: 0 <= i < |a| ==> a[i].0 in Nodes(a);
    assert forall i :: 0 <= i < |b| ==> b[i].0 in Nodes(b);
  }

  lemma PopKeepsFrontier(frontier: seq<(string, nat)>, visited: set<string>,
                         added: seq<(string, nat)>, peers: set<string>)
    requires FrontierOk(frontier, visited) && frontier != []
    requires Adds(added, peers, visited, frontier[0].1 + 1)
    requires added != [] ==> frontier[0].1 < HOP_CAP
    ensures FrontierOk(frontier[1..] + added, visited + peers)
  {
    var rest := frontier[1..];
    NodesHead(frontier);
    NodesJoin(rest, added);
    assert forall i :: 0 <= i < |rest| ==> rest[i] == frontier[i + 1];
    DistinctJoin(rest, added);
    hide Nodes, Distinct;
    assert forall i :: 0 <= i < |rest| ==> frontier[0].1 <= rest[i].1 <= frontier[0].1 + 1;
  }

  lemma PopKeepsOrder(order: seq<(string, nat)>, frontier: seq<(string, nat)>, visited: set<string>,
                      added: seq<(string, nat)>, peers: set<string>)
    requires FrontierOk(frontier, visited) && frontier != [] && Distinct(order)
    requires Nodes(order) == visited - Nodes(frontier)
    requires Adds(added, peers, visited, frontier[0].1 + 1)
    ensures Distinct(order + [frontier[0]])
    ensures Nodes(order + [frontier[0]]) == visited + peers - Nodes(frontier[1..] + added)
  {
    NodesHead(frontier);
    NodesJoin(frontier[1..], added);
    NodesJoin(order, [frontier[0]]);
    assert Nodes([frontier[0]]) == {frontier[0].0} by {
      assert [frontier[0]][0].0 == frontier[0].0;
    }
    DistinctJoin(order, [frontier[0]]);
  }

  /** A peer first seen from a node at depth d lies at distance d + 1. */
  lemma NewPeerDistance(net: Snapshot, from: string, node: string, depth: nat, visited: set<string>, p: string)
    requires node in Within(net, from, depth) && Within(net, from, depth) <= visited
    requires p in Next(net, node) && p !in visited
    ensures IsDistance(net, from, p, depth + 1)
  {
    hide Next;
  }

  /** Once the list has moved on to the next depth, everything that near was visited. */
  lemma NextLevelVisited(net: Snapshot, from: string, order: seq<(string, nat)>, visited: set<string>,
                         frontier: seq<(string, nat)>, depth: nat)
    requires Within(net, from, depth) <= visited && depth < HOP_CAP
    requires Nodes(order) == visited - Nodes(frontier)
    requires forall i :: 0 <= i < |frontier| ==>
               IsDistance(net, from, frontier[i].0, frontier[i].1) && frontier[i].1 == depth + 1
    requires forall i :: 0 <= i < |order| ==> order[i].1 <= depth
    requires forall i :: 0 <= i < |order| && order[i].1 < HOP_CAP ==> Next(net, order[i].0) <= visited
    ensures Within(net, from, depth + 1) <= visited
  {
    hide Next;
    forall n, m | n in Within(net, from, depth) && m in Next(net, n) ensures m in visited {
      assert n !in Nodes(frontier);
      assert n in Nodes(order);
      var i :| 0 <= i < |order| && order[i].0 == n;
    }
  }

  lemma PopDistances(net: Snapshot, from: string, frontier: seq<(string, nat)>, visited: set<string>,
                     added: seq<(string, nat)>)
    requires frontier != [] && Within(net, from, frontier[0].1) <= visited
    requires forall i :: 0 <= i < |frontier| ==> IsDistance(net, from, frontier[i].0, frontier[i].1)
    requires Adds(added, Expanded(net, frontier[0].0, frontier[0].1), visited, frontier[0].1 + 1)
    ensures var frontier' := frontier[1..] + added;
            forall i :: 0 <= i < |frontier'| ==> IsDistance(net, from, frontier'[i].0, frontier'[i].1)
  {
    hide Next, Within;
    var (node, depth) := frontier[0];
    var frontier' := frontier[1..] + added;
    forall i | 0 <= i < |frontier'| ensures IsDistance(net, from, frontier'[i].0, frontier'[i].1) {
      if i < |frontier| - 1 {
        assert frontier'[i] == frontier[i + 1];
      } else {
        var p := added[i - (|frontier| - 1)];
        assert p.0 in Nodes(added);
        NewPeerDistance(net, from, node, depth, visited, p.0);
      }
    }
  }

  lemma PopDepths(order: seq<(string, nat)>, frontier: seq<(string, nat)>, visited: set<string>,
                  added: seq<(string, nat)>)
    requires FrontierOk(frontier, visited) && frontier != []
    requires forall i, j :: 0 <= i < |order| && 0 <= j < |frontier| ==> order[i].1 <= frontier[j].1
    requires forall i :: 0 <= i < |added| ==> added[i].1 == frontier[0].1 + 1
    ensures var (order', frontier') := (order + [frontier[0]], frontier[1..] + added);
            && (forall i :: 0 <= i < |order'| ==> order'[i].1 <= frontier[0].1)
            && (forall i, j :: 0 <= i < |order'| && 0 <= j < |frontier'| ==> order'[i].1 <= frontier'[j].1)
  {
  }

  lemma PopKeepsWalk(net: Snapshot, from: string, order: seq<(string, nat)>, frontier: seq<(string, nat)>,
                     visited: set<string>, added: seq<(string, nat)>)
    requires WalkInv(net, from, order, frontier, visited) && frontier != []
    requires Adds(added, Expanded(net, frontier[0].0, frontier[0].1), visited, frontier[0].1 + 1)
    ensures WalkInv(net, from, order + [frontier[0]], frontier[1..] + added,
                    visited + Expanded(net, frontier[0].0, frontier[0].1))
  {
    hide Next, Within, IsDistance;
    var (node, depth) := frontier[0];
    var peers := Expanded(net, node, depth);
    var order', frontier', visited' := order + [frontier[0]], frontier[1..] + added, visited + peers;
    assert added != [] ==> added[0].0 in Nodes(added);
    PopKeepsFrontier(frontier, visited, added, peers);
    PopKeepsOrder(order, frontier, visited, added, peers);
    PopDistances(net, from, frontier, visited, added);
    PopDepths(order, frontier, visited, added);
    hide FrontierOk, Distinct, Nodes;
    forall i | 0 <= i < |order'| && order'[i].1 < HOP_CAP ensures Next(net, order'[i].0) <= visited' {
    }
    if frontier' != [] && frontier'[0].1 != depth {
      NextDepth(frontier, visited, added);
      PopToNextLevel(net, from, order', frontier', visited', depth);
    }
  }

  lemma NextDepth(frontier: seq<(string, nat)>, visited: set<string>, added: seq<(string, nat)>)
    requires FrontierOk(frontier, visited) && frontier != []
    requires forall i :: 0 <= i < |added| ==> added[i].1 == frontier[0].1 + 1
    ensures var frontier' := frontier[1..] + added;
            forall j :: 0 <= j < |frontier'| ==> frontier[0].1 <= frontier'[j].1 <= frontier[0].1 + 1
  {
  }

  lemma PopToNextLevel(net: Snapshot, from: string, order: seq<(string, nat)>, frontier: seq<(string, nat)>,
                       visited: set<string>, depth: nat)
    requires Within(net, from, depth) <= visited
    requires FrontierOk(frontier, visited) && frontier != [] && frontier[0].1 == depth + 1
    requires Nodes(order) == visited - Nodes(frontier)
    requires forall i :: 0 <= i < |frontier| ==>
               IsDistance(net, from, frontier[i].0, frontier[i].1) && frontier[i].1 <= depth + 1
    requires forall i :: 0 <= i < |order| ==> order[i].1 <= depth
    requires forall i :: 0 <= i < |order| && order[i].1 < HOP_CAP ==> Next(net, order[i].0) <= visited
    ensures Within(net, from, depth + 1) <= visited
  {
    hide Next, Within, Nodes, Distinct;
    forall i | 0 <= i < |frontier| ensures frontier[i].1 == depth + 1 {
      assert i > 0 ==> frontier[0].1 <= frontier[i].1;
    }
    NextLevelVisited(net, from, order, visited, frontier, depth);
  }

  /** When the list is empty, everything within the cap was visited. */
  lemma {:induction false} AllVisited(net: Snapshot, from: string, order: seq<(string, nat)>,
                                      visited: set<string>, k: nat)
    requires WalkInv(net, from, order, [], visited) && k <= HOP_CAP
    ensures Within(net, from, k) <= visited
    decreases k
  {
    hide Next;
    assert Nodes([]) == {};
    if k > 0 {
      AllVisited(net, from, order, visited, k - 1);
      forall n, m | n in Within(net, from, k - 1) && m in Next(net, n) ensures m in visited {
        assert n in Nodes(order);
        var i :| 0 <= i < |order| && order[i].0 == n;
        ShortDistance(net, from, n, order[i].1, k - 1);
      }
    }
  }

  lemma ShortDistance(net: Snapshot, from: string, node: string, d: nat, k: nat)
    requires IsDistance(net, from, node, d) && node in Within(net, from, k)
    ensures d <= k
  {
    hide Within;
    if d > k {
      WithinGrows(net, from, k, d - 1);
    }
  }

  /** The finished walk: every node within the cap, once, at its shortest distance. */
  ghost predicate IsWalk(net: Snapshot, from: string, order: seq<(string, nat)>) {
    && Distinct(order)
    && Nodes(order) == Within(net, from, HOP_CAP)
    && (forall i :: 0 <= i < |order| ==> IsDistance(net, from, order[i].0, order[i].1))
    && (forall i, j :: 0 <= i < j < |order| ==> order[i].1 <= order[j].1)
  }

  predicate Ascending(order: seq<(string, nat)>) {
    forall i, j :: 0 <= i < j < |order| ==> order[i].1 <= order[j].1
  }

  lemma FinishedIsWalk(net: Snapshot, from: string, order: seq<(string, nat)>, visited: set<string>)
    requires WalkInv(net, from, order, [], visited) && Ascending(order)
    ensures IsWalk(net, from, order)
  {
    hide Next, Within;
    AllVisited(net, from, order, visited, HOP_CAP);
    assert Nodes([]) == {};
    forall n | n in visited ensures n in Within(net, from, HOP_CAP) {
      assert n in Nodes(order);
      var i :| 0 <= i < |order| && order[i].0 == n;
      WithinGrows(net, from, order[i].1, HOP_CAP);
    }
  }

  /** Expanding one node's hops: rows, whether one arrives, and the new peers, each
      queued once at the next depth. */
  method Expand(net: Snapshot, node: string, depth: nat, hops: seq<NextHop>, visited: set<string>)
    returns (edges: seq<Edge>, arrived: bool, seen: set<string>, added: seq<(string, nat)>)
    ensures edges == HopRows(net, node, depth, hops)
    ensures arrived <==> exists i :: 0 <= i < |hops| && hops[i].Dev?
    ensures seen == visited + PeersOf(net, node, hops)
    ensures Adds(added, PeersOf(net, node, hops), visited, depth + 1)
  {
    edges, arrived, seen, added := [], false, visited, [];
    for i := 0 to |hops|
      invariant edges == HopRows(net, node, depth, hops[..i])
      invariant arrived <==> exists j :: 0 <= j < i && hops[j].Dev?
      invariant seen == visited + PeersOf(net, node, hops[..i])
      invariant Adds(added, PeersOf(net, node, hops[..i]), visited, depth + 1)
    {
      PeersMore(net, node, hops, i);
      match hops[i] {
        case Dev(_) =>
          arrived := true;
          edges := edges + [Reached(depth, node)];
        case Via(_, _) =>
          var peer := Peer(net, node, hops[i]);
          edges := edges + [Towards(depth, node, Egress(hops[i]), peer)];
          if peer.Some? && peer.value !in seen {
            QueueOne(added, (peer.value, depth + 1));
            seen := seen + {peer.value};
            added := added + [(peer.value, depth + 1)];
          }
      }
    }
    assert hops[..|hops|] == hops;
  }

  lemma PeersMore(net: Snapshot, node: string, hops: seq<NextHop>, i: nat)
    requires i < |hops|
    ensures PeersOf(net, node, hops[..i + 1])
         == PeersOf(net, node, hops[..i])
            + (if Peer(net, node, hops[i]).Some? then {Peer(net, node, hops[i]).value} else {})
    ensures hops[i].Dev? ==> Peer(net, node, hops[i]).None?
  {
  }

  lemma QueueOne(added: seq<(string, nat)>, entry: (string, nat))
    ensures Nodes(added + [entry]) == Nodes(added) + {entry.0}
    ensures Distinct(added) && entry.0 !in Nodes(added) ==> Distinct(added + [entry])
  {
    NodesJoin(added, [entry]);
    assert Nodes([entry]) == {entry.0} by {
      assert [entry][0].0 == entry.0;
    }
    if Distinct(added) && entry.0 !in Nodes(added) {
      DistinctJoin(added, [entry]);
    }
  }

  /** One turn of the walk: the hop cap, a node that does not answer, or its hops. */
  method Visit(net: Snapshot, node: string, depth: nat, visited: set<string>)
    returns (rows: seq<Edge>, arrived: bool, seen: set<string>, added: seq<(string, nat)>)
    ensures rows == RowsOf(net, node, depth)
    ensures arrived <==> depth < HOP_CAP && Arrives(net, node)
    ensures seen == visited + Expanded(net, node, depth)
    ensures Adds(added, Expanded(net, node, depth), visited, depth + 1)
  {
    NothingAdded(visited, depth + 1);
    if depth >= HOP_CAP {
      return [CapReached(depth, node)], false, visited, [];
    }
    if node !in net.answers {
      return [NoAnswer(depth, node)], false, visited, [];
    }
    var hops := AllNextHops(net.answers[node]);
    rows, arrived, seen, added := Expand(net, node, depth, hops, visited);
    if hops == [] {
      rows := rows + [DeadEnd(depth, node)];
    }
  }

  lemma NothingAdded(visited: set<string>, depth: nat)
    ensures Adds([], {}, visited, depth)
  {
  }

  /** `walk`: ends on every snapshot. `order` lists the nodes taken off the work list;
      those below the cap were asked, each once, at their shortest distance. */
  method Walk(net: Snapshot, from: string)
    returns (edges: seq<Edge>, complete: bool, capHit: bool, order: seq<(string, nat)>)
    ensures IsWalk(net, from, order)
    ensures edges == Rows(net, order)
    ensures complete <==> SomeoneArrives(net, from)
    ensures capHit <==> SomeoneAtCap(net, from)
  {
    hide WalkInv, Ascending, Rows, RowsOf, AnyArrives, AnyAtCap, Arrives, Adds, Expanded, Universe, Nodes, IsWalk,
      SomeoneArrives, SomeoneAtCap;
    edges, complete, capHit, order := [], false, false, [];
    var visited, frontier := {from}, [(from, 0)];
    StartWalk(net, from);
    while frontier != []
      invariant WalkInv(net, from, order, frontier, visited) && Ascending(order)
      invariant visited <= Universe(net, from)
      invariant edges == Rows(net, order)
      invariant complete <==> AnyArrives(net, order)
      invariant capHit <==> AnyAtCap(order)
      decreases Universe(net, from) - Nodes(order)
    {
      var (node, depth) := frontier[0];
      var rows, arrived, seen, added := Visit(net, node, depth, visited);
      capHit := capHit || depth >= HOP_CAP;
      complete := complete || arrived;
      PopKeepsWalk(net, from, order, frontier, visited, added);
      PopProgress(net, from, order, frontier, visited);
      OrderMore(net, order, frontier[0]);
      edges := edges + rows;
      order, frontier, visited := order + [frontier[0]], frontier[1..] + added, seen;
    }
    FinishedIsWalk(net, from, order, visited);
    WalkMeans(net, from, order);
  }

  predicate AnyArrives(net: Snapshot, order: seq<(string, nat)>) {
    exists i :: 0 <= i < |order| && order[i].1 < HOP_CAP && Arrives(net, order[i].0)
  }

  predicate AnyAtCap(order: seq<(string, nat)>) {
    exists i :: 0 <= i < |order| && order[i].1 >= HOP_CAP
  }

  /** Some node closer than the cap answers that it is the destination. */
  ghost predicate SomeoneArrives(net: Snapshot, from: string) {
    exists n, k: nat :: k < HOP_CAP && IsDistance(net, from, n, k) && Arrives(net, n)
  }

  /** Some node lies exactly at the cap. */
  ghost predicate SomeoneAtCap(net: Snapshot, from: string) {
    exists n :: IsDistance(net, from, n, HOP_CAP)
  }

  lemma StartWalk(net: Snapshot, from: string)
    ensures WalkInv(net, from, [], [(from, 0)], {from}) && Ascending([])
    ensures {from} <= Universe(net, from)
    ensures Rows(net, []) == [] && !AnyArrives(net, []) && !AnyAtCap([])
  {
    hide Next;
    assert Nodes([]) == {};
    assert Nodes([(from, 0)]) == {from} by {
      assert [(from, 0)][0].0 == from;
    }
    assert Within(net, from, 0) == {from};
  }

  /** The node taken off was not in the order before, and new peers are nodes of the mesh. */
  lemma PopProgress(net: Snapshot, from: string, order: seq<(string, nat)>, frontier: seq<(string, nat)>,
                    visited: set<string>)
    requires WalkInv(net, from, order, frontier, visited) && frontier != [] && Ascending(order)
    requires visited <= Universe(net, from)
    ensures Ascending(order + [frontier[0]])
    ensures Expanded(net, frontier[0].0, frontier[0].1) <= Universe(net, from)
    ensures Nodes(order + [frontier[0]]) == Nodes(order) + {frontier[0].0}
    ensures frontier[0].0 in Universe(net, from) && frontier[0].0 !in Nodes(order)
  {
    hide Within, Universe, IsDistance;
    var node := frontier[0].0;
    assert node in Nodes(frontier);
    QueueOne(order, frontier[0]);
    PeersInUniverse(net, from, node, Hops(net, node));
  }

  lemma OrderMore(net: Snapshot, order: seq<(string, nat)>, entry: (string, nat))
    ensures Rows(net, order + [entry]) == Rows(net, order) + RowsOf(net, entry.0, entry.1)
    ensures AnyArrives(net, order + [entry]) <==> AnyArrives(net, order) || (entry.1 < HOP_CAP && Arrives(net, entry.0))
    ensures AnyAtCap(order + [entry]) <==> AnyAtCap(order) || entry.1 >= HOP_CAP
  {
  }

  /** What the flags say, in terms of distances alone. */
  lemma WalkMeans(net: Snapshot, from: string, order: seq<(string, nat)>)
    requires IsWalk(net, from, order)
    ensures AnyArrives(net, order) <==> SomeoneArrives(net, from)
    ensures AnyAtCap(order) <==> SomeoneAtCap(net, from)
  {
    hide Within, Arrives, IsDistance;
    if SomeoneArrives(net, from) {
      var n, k: nat :| k < HOP_CAP && IsDistance(net, from, n, k) && Arrives(net, n);
      var i := Listed(net, from, order, n, k);
    }
    if SomeoneAtCap(net, from) {
      var n :| IsDistance(net, from, n, HOP_CAP);
      var i := Listed(net, from, order, n, HOP_CAP);
    }
    forall i | 0 <= i < |order| && order[i].1 >= HOP_CAP ensures SomeoneAtCap(net, from) {
      assert order[i].0 in Nodes(order);
      assert order[i].0 in Within(net, from, HOP_CAP);
      ShortDistance(net, from, order[i].0, order[i].1, HOP_CAP);
    }
  }

  /** Every node within the cap is in the order, at its distance. */
  lemma Listed(net: Snapshot, from: string, order: seq<(string, nat)>, n: string, k: nat) returns (i: nat)
    requires IsWalk(net, from, order) && k <= HOP_CAP && IsDistance(net, from, n, k)
    ensures i < |order| && order[i] == (n, k)
  {
    WithinGrows(net, from, k, HOP_CAP);
    hide Within;
    assert n in Nodes(order);
    i :| 0 <= i < |order| && order[i].0 == n;
    DistanceIsUnique(net, from, n, order[i].1, k);
  }

  /** What the rows say: each is of a visited node, at its distance; a row that
      arrives, is cut or leads on does so in the mesh; and no visited node is without
      a row. */
  lemma {:induction false} RowsTellTheWalk(net: Snapshot, from: string, order: seq<(string, nat)>)
    requires IsWalk(net, from, order)
    ensures forall e :: e in Rows(net, order) ==> TrueRow(net, from, e)
    ensures forall n :: n in Within(net, from, HOP_CAP) ==> exists e :: e in Rows(net, order) && e.node == n
    ensures (exists e :: e in Rows(net, order) && e.Reached?) <==> SomeoneArrives(net, from)
  {
    hide Within, IsDistance, RowsOf, Arrives;
    forall e | e in Rows(net, order) ensures TrueRow(net, from, e) {
      RowIsOfEntry(net, order, e);
      var i :| 0 <= i < |order| && e in RowsOf(net, order[i].0, order[i].1);
      RowIsTrue(net, from, order[i].0, order[i].1, e);
    }
    forall n | n in Within(net, from, HOP_CAP) ensures exists e :: e in Rows(net, order) && e.node == n {
      assert n in Nodes(order);
      var i :| 0 <= i < |order| && order[i].0 == n;
      var e := EntryHasRow(net, order, i);
    }
    if SomeoneArrives(net, from) {
      WalkMeans(net, from, order);
      var i :| 0 <= i < |order| && order[i].1 < HOP_CAP && Arrives(net, order[i].0);
      ArrivalHasRow(net, order[i].0, order[i].1);
      EntryRows(net, order, i);
      assert Reached(order[i].1, order[i].0) in Rows(net, order);
    }
    if e :| e in Rows(net, order) && e.Reached? {
      assert TrueRow(net, from, e);
    }
  }

  ghost predicate TrueRow(net: Snapshot, from: string, e: Edge) {
    && IsDistance(net, from, e.node, e.depth)
    && (e.CapReached? <==> e.depth >= HOP_CAP)
    && (e.NoAnswer? ==> e.node !in net.answers)
    && (e.DeadEnd? ==> e.node in net.answers && Hops(net, e.node) == [])
    && (e.Reached? ==> Arrives(net, e.node))
    && (e.Towards? && e.peer.Some? ==> e.peer.value in Next(net, e.node))
  }

  lemma RowIsTrue(net: Snapshot, from: string, node: string, depth: nat, e: Edge)
    requires e in RowsOf(net, node, depth) && IsDistance(net, from, node, depth)
    ensures TrueRow(net, from, e)
  {
    hide Within, IsDistance, Hops, Peer, Egress;
    if depth < HOP_CAP && node in net.answers && Hops(net, node) != [] {
      var i :| 0 <= i < |Hops(net, node)| && e == HopRows(net, node, depth, Hops(net, node))[i];
    }
  }

  lemma {:induction false} RowIsOfEntry(net: Snapshot, order: seq<(string, nat)>, e: Edge)
    requires e in Rows(net, order)
    ensures exists i :: 0 <= i < |order| && e in RowsOf(net, order[i].0, order[i].1)
    decreases |order|
  {
    hide RowsOf;
    var front, last := order[..|order| - 1], order[|order| - 1];
    if e in Rows(net, front) {
      RowIsOfEntry(net, front, e);
      var i :| 0 <= i < |front| && e in RowsOf(net, front[i].0, front[i].1);
      assert order[i] == front[i];
    } else {
      assert e in RowsOf(net, last.0, last.1);
    }
  }

  lemma {:induction false} EntryRows(net: Snapshot, order: seq<(string, nat)>, i: nat)
    requires i < |order|
    ensures forall e :: e in RowsOf(net, order[i].0, order[i].1) ==> e in Rows(net, order)
    decreases |order|
  {
    hide RowsOf;
    if i < |order| - 1 {
      EntryRows(net, order[..|order| - 1], i);
    }
  }

  lemma EntryHasRow(net: Snapshot, order: seq<(string, nat)>, i: nat) returns (e: Edge)
    requires i < |order|
    ensures e in Rows(net, order) && e.node == order[i].0
  {
    EntryRows(net, order, i);
    e := RowsOf(net, order[i].0, order[i].1)[0];
  }

  lemma ArrivalHasRow(net: Snapshot, node: string, depth: nat)
    requires depth < HOP_CAP && Arrives(net, node)
    ensures Reached(depth, node) in RowsOf(net, node, depth)
  {
    hide Deduped, Flat;
    var i :| 0 <= i < |Hops(net, node)| && Hops(net, node)[i].Dev?;
    assert HopRows(net, node, depth, Hops(net, node))[i] == Reached(depth, node);
  }
}
