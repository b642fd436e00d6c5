/** What a walk reports, told from the answers and the links alone
    (crates/controller/src/trace.rs:222-363). */
module TraceRows {
  import opened Core
  import opened Trace

  // ── Next hops and links as they are ──────────────────────────────────────

  /** Some route of the node's answer names the next hop. */
  predicate Reported(net: Snapshot, node: string, h: NextHop) {
    && node in net.answers
    && exists i :: 0 <= i < |net.answers[node]| && h in net.answers[node][i]
  }

  /** The node's first link on the interface. */
  predicate FirstOn(links: seq<LinkKey>, j: int, iface: string) {
    0 <= j < |links| && links[j].iface == iface && forall k :: 0 <= k < j ==> links[k].iface != iface
  }

  /** The next hop goes out of a named interface, whose first link goes to `p`. */
  ghost predicate LeadsTo(net: Snapshot, node: string, h: NextHop, p: string) {
    && h.Via? && h.iface.Some? && h.iface.value != ""
    && node in net.links
    && exists j :: FirstOn(net.links[node], j, h.iface.value) && net.links[node][j].to == p
  }

  predicate AlikePart(a: Option<string>, b: Option<string>) {
    a == b || (a in {None, Some("")} && b in {None, Some("")})
  }

  /** Of one kind, address and interface, an unset part being an empty one. */
  predicate Alike(h: NextHop, g: NextHop) {
    && (h.Dev? <==> g.Dev?)
    && AlikePart(h.iface, g.iface)
    && (h.Via? && g.Via? ==> AlikePart(h.addr, g.addr))
  }

  /** One of every next hop reported. */
  ghost predicate OneOfEach(net: Snapshot, node: string, hops: seq<NextHop>) {
    && (forall i :: 0 <= i < |hops| ==> Reported(net, node, hops[i]))
    && (forall i, j :: 0 <= i < j < |hops| ==> !Alike(hops[i], hops[j]))
    && (forall h :: Reported(net, node, h) ==> exists i :: 0 <= i < |hops| && Alike(hops[i], h))
  }

  /** The row of one next hop: arrived, or out of its interface to where that leads. */
  ghost predicate IsRowOf(net: Snapshot, node: string, depth: nat, h: NextHop, e: Edge) {
    match e
    case Reached(d, n) => h.Dev? && d == depth && n == node
    case Towards(d, n, iface, peer) =>
      && h.Via? && d == depth && n == node
      && iface == (if h.iface == Some("") then None else h.iface)
      && forall p :: peer == Some(p) <==> LeadsTo(net, node, h, p)
    case _ => false
  }

  /** The rows of a node at some depth: a cut, a node that does not answer, one that
      reports nothing, or a row for one of every next hop. */
  ghost predicate TellsNode(net: Snapshot, node: string, depth: nat, rows: seq<Edge>) {
    if depth >= 24 then rows == [CapReached(depth, node)]
    else if node !in net.answers then rows == [NoAnswer(depth, node)]
    else if forall i :: 0 <= i < |net.answers[node]| ==> net.answers[node][i] == []
    then rows == [DeadEnd(depth, node)]
    else exists hops :: OneOfEach(net, node, hops) && RowPerHop(net, node, depth, hops, rows)
  }

  ghost predicate RowPerHop(net: Snapshot, node: string, depth: nat, hops: seq<NextHop>, rows: seq<Edge>) {
    |rows| == |hops| && forall i :: 0 <= i < |rows| ==> IsRowOf(net, node, depth, hops[i], rows[i])
  }

  // ── Where a node leads ───────────────────────────────────────────────────

  lemma PeerIsFirst(net: Snapshot, node: string, h: NextHop, p: string)
    ensures Peer(net, node, h) == Some(p) <==> LeadsTo(net, node, h, p)
  {
    if Egress(h).Some? && node in net.links {
      PeerOnIsFirst(net.links[node], h.iface.value);
    }
  }

  lemma SameKeyIffAlike(h: NextHop, g: NextHop)
    ensures KeyOf(h) == KeyOf(g) <==> Alike(h, g)
  {
  }

  lemma {:induction false} FlatHasOnlyHops(routes: seq<seq<NextHop>>, h: NextHop)
    requires h in Flat(routes)
    ensures exists i :: 0 <= i < |routes| && h in routes[i]
    decreases |routes|
  {
    var front := routes[..|routes| - 1];
    if h in Flat(front) {
      FlatHasOnlyHops(front, h);
      var i :| 0 <= i < |front| && h in front[i];
      assert h in routes[i];
    }
  }

  /** A node's hops are one of each it reports. */
  lemma HopsAreOneOfEach(net: Snapshot, node: string)
    ensures OneOfEach(net, node, Hops(net, node))
  {
    var hops := Hops(net, node);
    if node in net.answers {
      var routes := net.answers[node];
      var all := Flat(routes);
      DedupedCovers(all);
      forall i | 0 <= i < |hops| ensures Reported(net, node, hops[i]) {
        FlatHasOnlyHops(routes, hops[i]);
      }
      forall i, j | 0 <= i < j < |hops| ensures !Alike(hops[i], hops[j]) {
        SameKeyIffAlike(hops[i], hops[j]);
      }
      forall h | Reported(net, node, h) ensures exists i :: 0 <= i < |hops| && Alike(hops[i], h) {
        var i := KeptFor(net, node, h);
      }
    }
  }

  lemma KeptFor(net: Snapshot, node: string, h: NextHop) returns (i: nat)
    requires Reported(net, node, h)
    ensures i < |Hops(net, node)| && Alike(Hops(net, node)[i], h)
  {
    hide KeyOf;
    var routes := net.answers[node];
    var r :| 0 <= r < |routes| && h in routes[r];
    FlatHasEveryHop(routes, r);
    var all := Flat(routes);
    DedupedCovers(all);
    var k :| 0 <= k < |all| && all[k] == h;
    assert KeyOf(h) in Keys(Hops(net, node));
    i :| 0 <= i < |Hops(net, node)| && KeyOf(Hops(net, node)[i]) == KeyOf(h);
    SameKeyIffAlike(Hops(net, node)[i], h);
  }

  /** The walk's graph: a node leads exactly to the far ends of the first links on the
      interfaces that its reported next hops go out of. */
  lemma NextIsReported(net: Snapshot, node: string, p: string)
    ensures p in Next(net, node) <==> exists h :: Reported(net, node, h) && LeadsTo(net, node, h, p)
  {
    hide Hops, Peer, Reported, LeadsTo;
    if p in Next(net, node) {
      var i :| 0 <= i < |Hops(net, node)| && Peer(net, node, Hops(net, node)[i]) == Some(p);
      PeerIsFirst(net, node, Hops(net, node)[i], p);
      HopIsReported(net, node, i);
    }
    forall h | Reported(net, node, h) && LeadsTo(net, node, h, p) ensures p in Next(net, node) {
      var i := KeptFor(net, node, h);
      AlikeLeadsTo(net, node, Hops(net, node)[i], h, p);
      PeerIsFirst(net, node, Hops(net, node)[i], p);
      assert Peer(net, node, Hops(net, node)[i]).value == p;
    }
  }

  lemma HopIsReported(net: Snapshot, node: string, i: nat)
    requires i < |Hops(net, node)|
    ensures Reported(net, node, Hops(net, node)[i])
  {
    hide Hops, Alike, Reported;
    HopsAreOneOfEach(net, node);
  }

  lemma AlikeLeadsTo(net: Snapshot, node: string, h: NextHop, g: NextHop, p: string)
    requires Alike(h, g) && LeadsTo(net, node, g, p)
    ensures LeadsTo(net, node, h, p)
  {
    hide FirstOn;
  }

  /** A node is where the walk arrives exactly when it reports its own device. */
  lemma ArrivesIsReported(net: Snapshot, node: string)
    ensures Arrives(net, node) <==> exists h :: Reported(net, node, h) && h.Dev?
  {
    hide Hops, Reported;
    if Arrives(net, node) {
      var i :| 0 <= i < |Hops(net, node)| && Hops(net, node)[i].Dev?;
      HopIsReported(net, node, i);
    }
    forall h | Reported(net, node, h) && h.Dev? ensures Arrives(net, node) {
      var i := KeptFor(net, node, h);
      assert Hops(net, node)[i].Dev?;
    }
  }

  // ── The rows ─────────────────────────────────────────────────────────────

  lemma NoHopsIffNothingReported(net: Snapshot, node: string)
    requires node in net.answers
    ensures Hops(net, node) == [] <==> forall i :: 0 <= i < |net.answers[node]| ==> net.answers[node][i] == []
  {
    hide Hops, Alike;
    var routes := net.answers[node];
    if Hops(net, node) != [] {
      HopIsReported(net, node, 0);
    }
    forall i | 0 <= i < |routes| && routes[i] != [] ensures Hops(net, node) != [] {
      assert Reported(net, node, routes[i][0]);
      var k := KeptFor(net, node, routes[i][0]);
    }
  }

  /** What one turn of the walk writes. */
  lemma RowsOfTellNode(net: Snapshot, node: string, depth: nat)
    ensures TellsNode(net, node, depth, RowsOf(net, node, depth))
  {
    hide Hops, Peer, LeadsTo, OneOfEach;
    if depth < HOP_CAP && node in net.answers {
      NoHopsIffNothingReported(net, node);
      HopsAreOneOfEach(net, node);
      var hops := Hops(net, node);
      if hops != [] {
        var rows := RowsOf(net, node, depth);
        forall i | 0 <= i < |rows| ensures IsRowOf(net, node, depth, hops[i], rows[i]) {
          forall p ensures Peer(net, node, hops[i]) == Some(p) <==> LeadsTo(net, node, hops[i], p) {
            PeerIsFirst(net, node, hops[i], p);
          }
        }
        assert RowPerHop(net, node, depth, hops, rows);
      }
    }
  }

  /** The rows about one node, in order. */
  function About(rows: seq<Edge>, node: string): seq<Edge>
    decreases |rows|
  {
    if rows == [] then []
    else About(rows[..|rows| - 1], node) + (if rows[|rows| - 1].node == node then [rows[|rows| - 1]] else [])
  }

  lemma {:induction false} AboutJoin(a: seq<Edge>, b: seq<Edge>, node: string)
    ensures About(a + b, node) == About(a, node) + About(b, node)
    decreases |b|
  {
    if b == [] {
      assert a + b == a;
    } else {
      assert (a + b)[..|a + b| - 1] == a + b[..|b| - 1];
      AboutJoin(a, b[..|b| - 1], node);
    }
  }

  lemma {:induction false} AboutOneNode(rows: seq<Edge>, of: string, node: string)
    requires forall i :: 0 <= i < |rows| ==> rows[i].node == of
    ensures About(rows, node) == if of == node then rows else []
    decreases |rows|
  {
    if rows != [] {
      AboutOneNode(rows[..|rows| - 1], of, node);
    }
  }

  lemma RowsAreOfTheirNode(net: Snapshot, node: string, depth: nat)
    ensures forall i :: 0 <= i < |RowsOf(net, node, depth)| ==> RowsOf(net, node, depth)[i].node == node
  {
    hide Hops, Peer, Egress;
  }

  lemma AboutLast(net: Snapshot, order: seq<(string, nat)>, node: string)
    requires order != []
    ensures var (before, last) := (order[..|order| - 1], order[|order| - 1]);
            About(Rows(net, order), node)
            == About(Rows(net, before), node) + if last.0 == node then RowsOf(net, node, last.1) else []
  {
    hide RowsOf, About;
    var before, last := order[..|order| - 1], order[|order| - 1];
    AboutJoin(Rows(net, before), RowsOf(net, last.0, last.1), node);
    RowsAreOfTheirNode(net, last.0, last.1);
    AboutOneNode(RowsOf(net, last.0, last.1), last.0, node);
  }

  /** A node is written about in its own turn only. */
  lemma {:induction false} AboutVisited(net: Snapshot, order: seq<(string, nat)>, node: string)
    requires Distinct(order)
    ensures (forall i :: 0 <= i < |order| ==> order[i].0 != node) ==> About(Rows(net, order), node) == []
    ensures forall i :: 0 <= i < |order| && order[i].0 == node ==> (
      About(Rows(net, order), node) == RowsOf(net, node, order[i].1))
    decreases |order|
  {
    hide RowsOf;
    if order != [] {
      var before := order[..|order| - 1];
      AboutVisited(net, before, node);
      AboutLast(net, order, node);
      hide About, Rows;
      assert forall i :: 0 <= i < |before| ==> before[i] == order[i];
    }
  }

  /** A walk's rows: those of every node within the cap tell what that node reported, at
      the node's distance, and there are none of any other node. */
  lemma WalkTellsAnswers(net: Snapshot, from: string, order: seq<(string, nat)>, node: string)
    requires IsWalk(net, from, order)
    ensures forall k: nat :: k <= 24 && IsDistance(net, from, node, k) ==> (
      TellsNode(net, node, k, About(Rows(net, order), node)))
    ensures node !in Within(net, from, 24) ==> About(Rows(net, order), node) == []
  {
    hide Within, IsDistance, Rows, About, TellsNode;
    AboutVisited(net, order, node);
    assert forall i :: 0 <= i < |order| ==> order[i].0 in Nodes(order);
    forall k: nat | k <= HOP_CAP && IsDistance(net, from, node, k)
      ensures TellsNode(net, node, k, About(Rows(net, order), node))
    {
      var i := Listed(net, from, order, node, k);
      RowsOfTellNode(net, node, k);
    }
  }
}
