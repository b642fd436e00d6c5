/** From packets to the controller, in every run: two routers, their markers' bounded
    queues drained by probes (crates/agent/src/mark.rs, crates/agent/src/agent.rs), and
    the rings of the two directed links a controller keeps the reports in
    (crates/controller/src/session.rs, `handle_reply`; crates/controller/src/tsdb.rs). */
module Reporting {
  import opened Core
  import opened AgentMark
  import NftChains
  import opened AlternateMarking
  import opened MarkingProof
  import opened MarkingBytes
  import opened Samples
  import opened Ring
  import LinkHistory
  import opened ControllerMark
  import opened EndToEnd

  // ── The machine ──────────────────────────────────────────────────────────

  /** One end: its marker's queue, the blocks probes took from it, and the controller's
      history of the link that starts there. */
  datatype End = End(queue: Queue, taken: set<MarkBlock>, link: LinkHistory.LinkState)

  datatype Desk = Desk(net: Net, left: End, right: End) {
    function At(s: Side): End { if s == Left then left else right }
    function With(s: Side, e: End): Desk { if s == Left then this.(left := e) else this.(right := e) }
  }

  ghost predicate Start(cfg: Config, d: Desk) {
    && Init(cfg, d.net)
    && d.left == End(map[], {}, LinkHistory.NEW_LINK) && d.right == End(map[], {}, LinkHistory.NEW_LINK)
  }

  ghost predicate DidReadBlock(cfg: Config, net: Net, net': Net, s: Side, underTest: bool)
    requires cfg.half > 0
  {
    Read(cfg, net, net', s, true, underTest)
  }

  /** A successful read queues what `Marker.Read` queues; no other step of the routers
      touches a queue. */
  ghost predicate QueueStep(cfg: Config, net: Net, net': Net, s: Side, queue: Queue, queue': Queue)
    requires cfg.half > 0
  {
    if exists underTest :: DidReadBlock(cfg, net, net', s, underTest)
    then exists underTest :: Pushes(cfg, net, net', s, underTest, queue, queue')
    else queue' == queue
  }

  ghost predicate Pushes(cfg: Config, net: Net, net': Net, s: Side, underTest: bool, queue: Queue, queue': Queue)
    requires cfg.half > 0
  {
    && DidReadBlock(cfg, net, net', s, underTest)
    && var r := net.At(s);
       queue' == ReadIfaces(queue, r.last, r.kernel.sets, r.pc.ifaces, r.pc.n, cfg.secs, underTest).0
  }

  ghost predicate Move(cfg: Config, d: Desk, d': Desk)
    requires cfg.half > 0
  {
    && Next(cfg, d.net, d'.net)
    && QueueStep(cfg, d.net, d'.net, Left, d.left.queue, d'.left.queue)
    && QueueStep(cfg, d.net, d'.net, Right, d.right.queue, d'.right.queue)
    && d'.left == d.left.(queue := d'.left.queue) && d'.right == d.right.(queue := d'.right.queue)
  }

  /** A probe takes the tunnel's blocks, as `Marker.TakeBlocks` hands them over. Its
      reply may be lost. */
  function Drained(cfg: Config, e: End, s: Side): End {
    var blocks := QueueOf(e.queue, cfg.Iface(s));
    e.(queue := if cfg.Iface(s) in e.queue then e.queue[cfg.Iface(s) := []] else e.queue,
       taken := e.taken + set b | b in blocks)
  }

  /** A drain hands over the tunnel's whole queue, and that alone. */
  lemma DrainHandsOver(cfg: Config, e: End, s: Side)
    ensures var (e', iface) := (Drained(cfg, e, s), if s == Left then cfg.ifLeft else cfg.ifRight);
            && QueueOf(e'.queue, iface) == [] && e'.link == e.link
            && (forall f :: f != iface ==> QueueOf(e'.queue, f) == QueueOf(e.queue, f))
            && (forall b :: b in e'.taken <==> b in e.taken || b in QueueOf(e.queue, iface))
  {
  }

  /** What may be appended to the link: measurements without block counters, and reports
      of blocks taken from the marker, fresh from a reply or as another controller holds
      them with more merged in. */
  ghost predicate MayAppend(e: End, x: Sample) {
    x.mark == map[] || exists b :: b in e.taken && Reports(x, b)
  }

  ghost predicate Step(cfg: Config, d: Desk, d': Desk)
    requires cfg.half > 0
  {
    || Move(cfg, d, d')
    || (exists s :: d' == d.With(s, Drained(cfg, d.At(s), s)))
    || (exists s, x :: MayAppend(d.At(s), x) && d' == d.With(s, Happened(d.At(s), LinkHistory.Ingest(x))))
    || (exists s, raw, agg :: d' == d.With(s, Happened(d.At(s), LinkHistory.Prune(raw, agg))))
  }

  function Happened(e: End, event: LinkHistory.Event): End { e.(link := LinkHistory.Step(e.link, event)) }

  ghost predicate IsHistory(cfg: Config, desks: seq<Desk>)
    requires cfg.half > 0
  {
    && |desks| > 0 && Start(cfg, desks[0])
    && forall i :: 0 <= i < |desks| - 1 ==> Step(cfg, desks[i], desks[i + 1])
  }

  // ── The invariant ────────────────────────────────────────────────────────

  /** The router queued this block. */
  predicate Queued(cfg: Config, r: Router, b: MarkBlock) { b.n in r.out && r.out[b.n] == b && b.secs == cfg.secs }

  /** The sample has no block counters, or those of a block the router queued. */
  ghost predicate Reported(cfg: Config, r: Router, x: Sample) {
    x.mark == map[] || exists b :: Queued(cfg, r, b) && Reports(x, b)
  }

  ghost predicate EndOk(cfg: Config, r: Router, e: End, s: Side) {
    && (forall b :: b in QueueOf(e.queue, cfg.Iface(s)) ==> Queued(cfg, r, b))
    && (forall b :: b in e.taken ==> Queued(cfg, r, b))
    && RingOk(e.link.ring)
    && (forall x :: x in e.link.ring.samples ==> Reported(cfg, r, x))
  }

  ghost predicate DeskInv(cfg: Config, d: Desk) {
    && Inv(cfg, d.net) && BothBytes(cfg, d.net)
    && EndOk(cfg, d.net.left, d.left, Left) && EndOk(cfg, d.net.right, d.right, Right)
  }

  // ── The routers' steps ───────────────────────────────────────────────────

  /** Blocks once queued stay as they are. */
  ghost predicate OutGrew(r: Router, r': Router) {
    forall n :: n in r.out ==> n in r'.out && r'.out[n] == r.out[n]
  }

  lemma ReadGrowsOut(cfg: Config, net: Net, net': Net, t: Side, ok: bool, underTest: bool, s: Side)
    requires cfg.Valid() && Inv(cfg, net) && Read(cfg, net, net', t, ok, underTest)
    ensures OutGrew(net.At(s), net'.At(s))
  {
    hide Edge, CountInv, PacketInv, Advance, BlockFor;
    var r := net.At(t);
    assert RouterInv(cfg, net, t);
    forall n | n in r.out ensures n != r.pc.n {
      assert OutOk(cfg, r, Clock(cfg, net, t), n);
    }
  }

  lemma NextGrowsOut(cfg: Config, net: Net, net': Net, s: Side)
    requires cfg.Valid() && Inv(cfg, net) && Next(cfg, net, net')
    ensures OutGrew(net.At(s), net'.At(s))
  {
    hide Edge, Inv, Read, NftChains.MarkPacket, NftChains.CountPacket, NftChains.AssertBlock, NftChains.Rebuild;
    if t, ok, underTest :| Read(cfg, net, net', t, ok, underTest) {
      ReadGrowsOut(cfg, net, net', t, ok, underTest, s);
    }
  }

  /** What a read puts on the tunnel's queue is the block it makes. */
  lemma {:induction false} PushedBlocks(queue: Queue, last: Baselines, sets: Listing, ifaces: seq<string>,
                                        n: nat, secs: nat, underTest: bool, iface: string)
    requires Complete(sets, n)
    ensures forall b :: b in QueueOf(ReadIfaces(queue, last, sets, ifaces, n, secs, underTest).0, iface) ==>
              || b in QueueOf(queue, iface)
              || (iface in ifaces && BlockFor(last, sets, iface, n, secs, underTest) == Some(b))
  {
    hide Complete, BlockFor;
    if ifaces != [] {
      PushedBlocks(queue, last, sets, ifaces[..|ifaces| - 1], n, secs, underTest, iface);
    }
  }

  lemma ReadQueues(cfg: Config, net: Net, net': Net, s: Side, underTest: bool, queue: Queue, queue': Queue,
                   b: MarkBlock)
    requires cfg.Valid() && Pushes(cfg, net, net', s, underTest, queue, queue') && b in QueueOf(queue', cfg.Iface(s))
    ensures b in QueueOf(queue, cfg.Iface(s)) || Queued(cfg, net'.At(s), b)
  {
    hide Edge, BlockFor, Advance, ReadIfaces;
    var r := net.At(s);
    PushedBlocks(queue, r.last, r.kernel.sets, r.pc.ifaces, r.pc.n, cfg.secs, underTest, cfg.Iface(s));
  }

  /** What an end holds stays reported while its router's blocks stay. */
  lemma EndStays(cfg: Config, r: Router, r': Router, e: End, e': End, s: Side)
    requires EndOk(cfg, r, e, s) && OutGrew(r, r') && e'.taken == e.taken && e'.link == e.link
    requires forall b :: b in QueueOf(e'.queue, cfg.Iface(s)) ==>
               b in QueueOf(e.queue, cfg.Iface(s)) || Queued(cfg, r', b)
    ensures EndOk(cfg, r', e', s)
  {
    hide RingOk, Reports, QueueOf;
    forall b | Queued(cfg, r, b) ensures Queued(cfg, r', b) {
    }
    forall x | x in e'.link.ring.samples ensures Reported(cfg, r', x) {
      assert Reported(cfg, r, x);
      if x.mark != map[] {
        var b :| Queued(cfg, r, b) && Reports(x, b);
        assert Queued(cfg, r', b);
      }
    }
  }

  lemma MoveKeepsEnd(cfg: Config, net: Net, net': Net, e: End, e': End, s: Side)
    requires cfg.Valid() && Inv(cfg, net) && Next(cfg, net, net') && EndOk(cfg, net.At(s), e, s)
    requires QueueStep(cfg, net, net', s, e.queue, e'.queue) && e' == e.(queue := e'.queue)
    ensures EndOk(cfg, net'.At(s), e', s)
  {
    hide Inv, Next, EndOk, DidReadBlock, Pushes, Queued;
    NextGrowsOut(cfg, net, net', s);
    if underTest :| Pushes(cfg, net, net', s, underTest, e.queue, e'.queue) {
      forall b | b in QueueOf(e'.queue, cfg.Iface(s))
        ensures b in QueueOf(e.queue, cfg.Iface(s)) || Queued(cfg, net'.At(s), b)
      {
        ReadQueues(cfg, net, net', s, underTest, e.queue, e'.queue, b);
      }
    }
    EndStays(cfg, net.At(s), net'.At(s), e, e', s);
  }

  // ── The controller's steps ───────────────────────────────────────────────

  lemma SameSecondSameBlock(n: nat, m: nat, secs: nat)
    requires secs > 0 && n * secs == m * secs
    ensures n == m
  {
    if n < m {
      LessTimes(n, m, secs);
    } else if m < n {
      LessTimes(m, n, secs);
    }
  }

  lemma LessTimes(n: nat, m: nat, secs: nat)
    requires secs > 0 && n < m
    ensures n * secs < m * secs
  {
  }

  /** Block samples of one second are the same block's, so a merge keeps its counters. */
  lemma MergeIsReported(cfg: Config, r: Router, prev: Sample, x: Sample)
    requires Reported(cfg, r, prev) && Reported(cfg, r, x) && prev.ts == x.ts
    ensures Reported(cfg, r, MergedWith(prev, x))
  {
    var now := MergedWith(prev, x);
    if prev.mark == map[] {
      assert now.mark == x.mark;
      CarriedOver(cfg, r, x, now);
    } else if x.mark == map[] {
      assert now.mark == prev.mark;
      CarriedOver(cfg, r, prev, now);
    } else {
      var b :| Queued(cfg, r, b) && Reports(prev, b);
      var c :| Queued(cfg, r, c) && Reports(x, c);
      SameSecondSameBlock(b.n, c.n, cfg.secs);
      assert now.mark == prev.mark;
      CarriedOver(cfg, r, prev, now);
    }
  }

  lemma CarriedOver(cfg: Config, r: Router, x: Sample, y: Sample)
    requires Reported(cfg, r, x) && y.ts == x.ts && y.mark == x.mark
    ensures Reported(cfg, r, y)
  {
    if x.mark != map[] {
      var b :| Queued(cfg, r, b) && Reports(x, b);
      assert Reports(y, b);
    }
  }

  lemma IngestKeepsRing(cfg: Config, r: Router, l: LinkHistory.LinkState, x: Sample)
    requires RingOk(l.ring) && (forall y :: y in l.ring.samples ==> Reported(cfg, r, y)) && Reported(cfg, r, x)
    ensures var l' := LinkHistory.Step(l, LinkHistory.Ingest(x));
            RingOk(l'.ring) && forall y :: y in l'.ring.samples ==> Reported(cfg, r, y)
  {
    hide Offer, Reported, MergedWith, Times, RingOk;
    OfferEffect(l.ring, x);
    match Offer(l.ring, x).1
    case Rejected =>
    case Inserted =>
    case Merged(prev, now) => MergeIsReported(cfg, r, prev, x);
  }

  lemma PruneKeepsReports(cfg: Config, r: Router, l: LinkHistory.LinkState, raw: nat, agg: nat)
    requires RingOk(l.ring) && forall y :: y in l.ring.samples ==> Reported(cfg, r, y)
    ensures var l' := LinkHistory.Step(l, LinkHistory.Prune(raw, agg));
            RingOk(l'.ring) && forall y :: y in l'.ring.samples ==> Reported(cfg, r, y)
  {
    hide PruneRing, Reported, Times;
    PruneEffect(l.ring, raw);
  }

  lemma DrainKeepsEnd(cfg: Config, r: Router, e: End, s: Side)
    requires EndOk(cfg, r, e, s)
    ensures EndOk(cfg, r, Drained(cfg, e, s), s)
  {
    hide RingOk, Reported, Queued;
  }

  lemma AppendKeepsEnd(cfg: Config, r: Router, e: End, s: Side, x: Sample)
    requires EndOk(cfg, r, e, s) && MayAppend(e, x)
    ensures EndOk(cfg, r, Happened(e, LinkHistory.Ingest(x)), s)
  {
    hide RingOk, Reports, Queued;
    assert Reported(cfg, r, x);
    hide Reported;
    IngestKeepsRing(cfg, r, e.link, x);
  }

  lemma RetainKeepsEnd(cfg: Config, r: Router, e: End, s: Side, raw: nat, agg: nat)
    requires EndOk(cfg, r, e, s)
    ensures EndOk(cfg, r, Happened(e, LinkHistory.Prune(raw, agg)), s)
  {
    hide RingOk, Reported, Queued;
    PruneKeepsReports(cfg, r, e.link, raw, agg);
  }

  // ── Every history ────────────────────────────────────────────────────────

  lemma StepKeepsDesk(cfg: Config, d: Desk, d': Desk)
    requires cfg.Valid() && DeskInv(cfg, d) && Step(cfg, d, d')
    ensures DeskInv(cfg, d')
  {
    hide Inv, BothBytes, Next, EndOk, QueueStep, Drained, Happened, MayAppend;
    if Move(cfg, d, d') {
      NextKeepsInv(cfg, d.net, d'.net);
      NextKeepsBytes(cfg, d.net, d'.net);
      MoveKeepsEnd(cfg, d.net, d'.net, d.left, d'.left, Left);
      MoveKeepsEnd(cfg, d.net, d'.net, d.right, d'.right, Right);
    } else if s :| d' == d.With(s, Drained(cfg, d.At(s), s)) {
      DrainKeepsEnd(cfg, d.net.At(s), d.At(s), s);
    } else if s, x :| MayAppend(d.At(s), x) && d' == d.With(s, Happened(d.At(s), LinkHistory.Ingest(x))) {
      AppendKeepsEnd(cfg, d.net.At(s), d.At(s), s, x);
    } else {
      var s, raw, agg :| d' == d.With(s, Happened(d.At(s), LinkHistory.Prune(raw, agg)));
      RetainKeepsEnd(cfg, d.net.At(s), d.At(s), s, raw, agg);
    }
  }

  lemma StartIsOk(cfg: Config, d: Desk)
    requires cfg.Valid() && Start(cfg, d)
    ensures DeskInv(cfg, d)
  {
    InitHolds(cfg, d.net);
    StartBytes(cfg, d.net);
    hide Inv, BothBytes, Init;
  }

  lemma {:induction false} HistoryKeepsDesk(cfg: Config, desks: seq<Desk>, i: nat)
    requires cfg.Valid() && IsHistory(cfg, desks) && i < |desks|
    ensures DeskInv(cfg, desks[i])
  {
    hide DeskInv, Start, Step;
    if i == 0 {
      StartIsOk(cfg, desks[0]);
    } else {
      HistoryKeepsDesk(cfg, desks, i - 1);
      assert Step(cfg, desks[i - 1], desks[i - 1 + 1]);
      StepKeepsDesk(cfg, desks[i - 1], desks[i]);
    }
  }

  /** Block samples a controller reads from a link's ring are its marker's reports. */
  lemma RingIsReported(cfg: Config, d: Desk, s: Side, samples: seq<Sample>)
    requires DeskInv(cfg, d) && forall x :: x in samples ==> x in d.At(s).link.ring.samples
    ensures ReportedBy(cfg, d.net.At(s), samples)
  {
    hide Inv, BothBytes, RingOk, Reports;
    assert EndOk(cfg, d.net.At(s), d.At(s), s);
    var r := d.net.At(s);
    forall x | x in samples && x.IsBlock()
      ensures exists n :: n in r.out && r.out[n].secs == cfg.secs && Reports(x, r.out[n])
    {
      assert Reported(cfg, r, x);
      var b :| Queued(cfg, r, b) && Reports(x, b);
      assert b.n in r.out;
    }
  }

  /** The theorem. In every history, for every block the controller joins from what it
      holds of the two links, around which the sender's flips succeeded: the loss and
      the bytes it reports are those of the packets of that block. A rebuild of the
      receiver's table makes its half a reset, which does not join. */
  lemma JoinedLossIsRealLoss(cfg: Config, desks: seq<Desk>, i: nat, s: Side,
                             own: seq<Sample>, rev: seq<Sample>, b: Block)
    requires cfg.Valid() && IsHistory(cfg, desks) && i < |desks|
    requires forall x :: x in own ==> x in desks[i].At(s).link.ring.samples
    requires forall x :: x in rev ==> x in desks[i].At(Other(s)).link.ring.samples
    requires b in Join(own, rev) && FlipsAround(desks[i].net.At(s), b.n)
    ensures Truthful(cfg, desks[i].net, s, b)
  {
    hide IsHistory, Inv, EndOk, Join, FlipsAround, ReportedBy, Truthful, ByteInv;
    HistoryKeepsDesk(cfg, desks, i);
    RingIsReported(cfg, desks[i], s, own);
    RingIsReported(cfg, desks[i], Other(s), rev);
    assert ByteInv(cfg, desks[i].net, s);
    JoinedIsTruthful(cfg, desks[i].net, s, own, rev, b);
  }

  /** And none is missed: in every history, a block the controller holds from both ends is
      joined exactly when neither end's half is a reset. */
  lemma EveryHeldBlockIsJoined(cfg: Config, desks: seq<Desk>, i: nat, s: Side, own: seq<Sample>, rev: seq<Sample>,
                               x: Sample, y: Sample, n: nat)
    requires cfg.Valid() && IsHistory(cfg, desks) && i < |desks|
    requires forall x :: x in own ==> x in desks[i].At(s).link.ring.samples
    requires forall x :: x in rev ==> x in desks[i].At(Other(s)).link.ring.samples
    requires x in own && IsBlockOf(x, n) && y in rev && IsBlockOf(y, n)
    ensures var (t, r) := (desks[i].net.At(s).out, desks[i].net.At(Other(s)).out);
            && n in t && n in r
            && ((exists b :: b in Join(own, rev) && b.n == n) <==> !t[n].reset && !r[n].reset)
  {
    hide IsHistory, Inv, EndOk, Join, ReportedBy, IsBlockOf;
    HistoryKeepsDesk(cfg, desks, i);
    RingIsReported(cfg, desks[i], s, own);
    RingIsReported(cfg, desks[i], Other(s), rev);
    EveryCleanBlockIsJoined(cfg, desks[i].net, s, own, rev, x, y, n);
  }
}
