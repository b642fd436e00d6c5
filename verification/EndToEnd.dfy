/** What two block samples say of a block: the loss and the bytes joined for it
    against the packets of that block, in every reachable state of the two routers. */
module EndToEnd {
  import opened Core
  import opened AgentMark
  import opened NftChains
  import opened AlternateMarking
  import opened MarkingProof
  import opened MarkingBytes
  import opened Samples
  import opened ControllerMark

  /** Once the receiver has read block n, every packet of the block has met its fate. */
  lemma BlockIsSettled(cfg: Config, net: Net, s: Side, n: nat, b: Band)
    requires cfg.Valid() && Inv(cfg, net) && n in net.At(Other(s)).out
    ensures |SentIn(net.pkts, s, n, b)|
            == |DeliveredIn(net.pkts, net.delivered, s, n, b)| + |DroppedIn(net.pkts, net.dropped, s, n, b)|
  {
    hide Inv, PacketOk, InBlock;
    var sent := SentIn(net.pkts, s, n, b);
    var delivered := DeliveredIn(net.pkts, net.delivered, s, n, b);
    var dropped := DroppedIn(net.pkts, net.dropped, s, n, b);
    forall id | id in sent ensures !net.InFlight(id) && !(id in net.delivered && id in net.dropped) {
      PacketIsSettled(cfg, net, s, n, b, id);
    }
    assert sent == delivered + dropped;
    assert delivered !! dropped;
  }

  lemma PacketIsSettled(cfg: Config, net: Net, s: Side, n: nat, b: Band, id: nat)
    requires cfg.Valid() && Inv(cfg, net) && n in net.At(Other(s)).out && id in SentIn(net.pkts, s, n, b)
    ensures !net.InFlight(id) && !(id in net.delivered && id in net.dropped)
  {
    hide Edge, CountInv, WindowOk, BaselineOk;
    assert PacketOk(cfg, net, id);
    assert OutOk(cfg, net.At(Other(s)), Clock(cfg, net, Other(s)), n);
    if net.InFlight(id) {
      NothingArrivesAfterRead(cfg, net, id, n);
    }
  }

  /** With the sender's table whole and the interface managed from block n - 1 to
      n + 1, no unmarked packet falls into the receiver's count of block n. */
  lemma CleanSenderHasNoStrays(cfg: Config, net: Net, s: Side, n: nat, b: Band)
    requires cfg.Valid() && Inv(cfg, net) && n in net.At(Other(s)).out
    requires n >= 1 ==> n - 1 in net.At(s).clean
    requires n in net.At(s).clean && n + 1 in net.At(s).clean
    ensures StrayIn(net.pkts, net.delivered, s, n, b) == {}
  {
    hide CountInv, RouterInv, Edge, BandOf;
    forall id | id in net.delivered && id in net.pkts ensures !Stray(net.pkts[id], net.delivered[id], s, n, b) {
      StrayIsNearby(cfg, net, s, n, b, id);
    }
  }

  /** Timing: a stray of block n was sent during block n - 1, n or n + 1. */
  lemma StrayIsNearby(cfg: Config, net: Net, s: Side, n: nat, b: Band, id: nat)
    requires cfg.Valid() && PacketInv(cfg, net) && n in net.At(Other(s)).out
    requires id in net.delivered
    ensures Stray(net.pkts[id], net.delivered[id], s, n, b) ==>
              && n >= 1 && n - 1 <= net.pkts[id].during <= n + 1
              && net.pkts[id].during !in net.At(s).clean
  {
    hide Edge, BandOf;
    var p, d := net.pkts[id], net.delivered[id];
    if p.src == s && !p.marked && d.window == Some(n) {
      assert PacketOk(cfg, net, id) && WindowOk(cfg, net, id);
      EdgeNext(cfg, n - 1);
      EdgeNext(cfg, n);
      EdgeOrder(cfg, p.during, n + 1);
      EdgeOrder(cfg, n - 1, p.during);
    }
  }

  function Sent(net: Net, s: Side, n: nat, b: Band): nat { |SentIn(net.pkts, s, n, b)| }
  function Lost(net: Net, s: Side, n: nat, b: Band): nat { |DroppedIn(net.pkts, net.dropped, s, n, b)| }
  function Strays(net: Net, s: Side, n: nat, b: Band): nat { |StrayIn(net.pkts, net.delivered, s, n, b)| }

  /** What the two markers queued for a block, when neither flagged it: the sender's
      count is the block's packets, the receiver's is those not lost, plus strays. */
  lemma BothHalvesAreExact(cfg: Config, net: Net, s: Side, n: nat, b: Band)
    requires cfg.Valid() && Inv(cfg, net) && FlipsAround(net.At(s), n)
    requires n in net.At(s).out && n in net.At(Other(s)).out
    requires !net.At(s).out[n].reset && !net.At(Other(s)).out[n].reset
    ensures PktsOf(net.At(s).out[n], Tx, b) == Sent(net, s, n, b)
    ensures PktsOf(net.At(Other(s)).out[n], Rx, b) == Sent(net, s, n, b) - Lost(net, s, n, b) + Strays(net, s, n, b)
  {
    assert OutTx(net, s, n, b) && OutRx(net, s, n, b);
    BlockIsSettled(cfg, net, s, n, b);
  }

  /** The sample is the report of this block: whatever else was merged into its second,
      the block counters are as queued. */
  predicate Reports(x: Sample, b: MarkBlock) {
    FromBlock(b).Some? && x.ts == FromBlock(b).value.ts && x.mark == FromBlock(b).value.mark
  }

  /** The samples' blocks are reports of one router's end of the tunnel. */
  ghost predicate ReportedBy(cfg: Config, r: Router, samples: seq<Sample>) {
    forall x :: x in samples && x.IsBlock() ==>
      exists n :: n in r.out && r.out[n].secs == cfg.secs && Reports(x, r.out[n])
  }

  lemma ReportCarriesBlock(cfg: Config, net: Net, s: Side, samples: seq<Sample>, x: Sample)
    requires Inv(cfg, net) && ReportedBy(cfg, net.At(s), samples) && x in samples && x.IsBlock()
    ensures var r := net.At(s);
            var n := x.mark[BlockN];
            n in r.out && r.out[n].n == n && r.out[n].secs == cfg.secs && Reports(x, r.out[n])
  {
    hide CountInv, PacketInv, Edge;
    var r := net.At(s);
    var n :| n in r.out && r.out[n].secs == cfg.secs && Reports(x, r.out[n]);
    assert OutOk(cfg, r, Clock(cfg, net, s), n);
  }

  /** The flags of a report are the block's. */
  lemma ReportFlags(x: Sample, b: MarkBlock)
    requires Reports(x, b)
    ensures x.Flag(MARK_RESET) <==> b.reset
    ensures x.Flag(MARK_UNDER_TEST) <==> b.underTest
  {
  }

  lemma LossFromCounts(sent: nat, lost: nat, strays: nat)
    requires lost <= sent
    ensures SatSub(Clamp(sent), Clamp(sent - lost + strays)) <= lost
    ensures sent <= U32_MAX ==> SatSub(Clamp(sent), Clamp(sent - lost + strays)) == SatSub(lost, strays)
  {
  }

  /** The loss of one band of a block neither end flagged. */
  lemma BandLoss(cfg: Config, net: Net, s: Side, n: nat, b: Band)
    requires cfg.Valid() && Inv(cfg, net) && FlipsAround(net.At(s), n)
    requires n in net.At(s).out && n in net.At(Other(s)).out
    requires !net.At(s).out[n].reset && !net.At(Other(s)).out[n].reset
    ensures var lost := SatSub(Clamp(PktsOf(net.At(s).out[n], Tx, b)), Clamp(PktsOf(net.At(Other(s)).out[n], Rx, b)));
            && lost <= Lost(net, s, n, b)
            && (Sent(net, s, n, b) <= U32_MAX ==>
                  && lost == SatSub(Lost(net, s, n, b), Strays(net, s, n, b))
                  && (WholeAround(net.At(s), n) ==> lost == Lost(net, s, n, b)))
  {
    hide Inv, Clamp, FlipsAround;
    BothHalvesAreExact(cfg, net, s, n, b);
    BlockIsSettled(cfg, net, s, n, b);
    if WholeAround(net.At(s), n) {
      CleanSenderHasNoStrays(cfg, net, s, n, b);
    }
    LossFromCounts(Sent(net, s, n, b), Lost(net, s, n, b), Strays(net, s, n, b));
  }

  /** A joined block is the two ends' own blocks of one number, neither a reset. */
  lemma JoinHasBothHalves(cfg: Config, net: Net, s: Side, own: seq<Sample>, rev: seq<Sample>, b: Block)
    requires cfg.Valid() && Inv(cfg, net)
    requires ReportedBy(cfg, net.At(s), own) && ReportedBy(cfg, net.At(Other(s)), rev) && b in Join(own, rev)
    ensures var tx, rx := net.At(s).out, net.At(Other(s)).out;
            && b.n in tx && b.n in rx && !tx[b.n].reset && !rx[b.n].reset
            && IsJoinOf(b, tx[b.n], rx[b.n]) && b.ts == b.n * cfg.secs && b.secs == cfg.secs
  {
    hide Inv, Join, IsJoinOf;
    var tx, rx := JoinedHalves(own, rev, b);
    ReportCarriesBlock(cfg, net, s, own, tx);
    ReportCarriesBlock(cfg, net, Other(s), rev, rx);
    hide ReportedBy, FromBlock, JoinedBlock, Joins, Sample.Flag;
    JoinedFields(tx, rx, net.At(s).out[b.n], net.At(Other(s)).out[b.n]);
  }

  /** A report has the block's number, length and counters. */
  lemma ReportIsComplete(x: Sample, y: Sample, t: MarkBlock, r: MarkBlock)
    requires Reports(x, t) && Reports(y, r) && t.secs == r.secs
    ensures Joins(x, y) <==> !t.reset && !r.reset
  {
    ReportFlags(x, t);
    ReportFlags(y, r);
    hide Sample.Flag;
  }

  /** The join misses nothing: a block that both ends have reported has an entry exactly
      when neither end flagged it a reset. */
  lemma EveryCleanBlockIsJoined(cfg: Config, net: Net, s: Side, own: seq<Sample>, rev: seq<Sample>,
                                x: Sample, y: Sample, n: nat)
    requires cfg.Valid() && Inv(cfg, net)
    requires ReportedBy(cfg, net.At(s), own) && ReportedBy(cfg, net.At(Other(s)), rev)
    requires x in own && IsBlockOf(x, n) && y in rev && IsBlockOf(y, n)
    ensures n in net.At(s).out && n in net.At(Other(s)).out
    ensures (exists b :: b in Join(own, rev) && b.n == n)
       <==> !net.At(s).out[n].reset && !net.At(Other(s)).out[n].reset
  {
    hide Inv, Join, Joins, IsJoinOf, ReportedBy, Reports;
    ReportCarriesBlock(cfg, net, s, own, x);
    ReportCarriesBlock(cfg, net, Other(s), rev, y);
    var t, r := net.At(s).out[n], net.At(Other(s)).out[n];
    forall b | b in Join(own, rev) && b.n == n ensures !t.reset && !r.reset {
      JoinHasBothHalves(cfg, net, s, own, rev, b);
    }
    if !t.reset && !r.reset {
      var rx := LastOf(rev, y, n);
      ReportCarriesBlock(cfg, net, Other(s), rev, rx);
      ReportIsComplete(x, rx, t, r);
      var b := JoinHas(own, rev, x, rx, n);
    }
  }

  /** What a joined block has of its two halves: the sender's counts, bytes and times,
      the receiver's counts, and a test if either end had one. */
  predicate IsJoinOf(b: Block, t: MarkBlock, r: MarkBlock) {
    && b.n == t.n && b.ts == t.n * t.secs && b.secs == t.secs
    && b.sentS == Clamp(t.txS) && b.sentL == Clamp(t.txL) && b.bytes == t.txBytes
    && b.recvS == Clamp(r.rxS) && b.recvL == Clamp(r.rxL)
    && (b.underTest <==> t.underTest || r.underTest)
  }

  lemma JoinedFields(tx: Sample, rx: Sample, t: MarkBlock, r: MarkBlock)
    requires Reports(tx, t) && Reports(rx, r) && tx.IsBlock() && Joins(tx, rx)
    ensures !t.reset && !r.reset && IsJoinOf(JoinedBlock(tx, rx), t, r)
  {
    ReportFlags(tx, t);
    ReportFlags(rx, r);
    hide Sample.Flag;
  }

  /** What a joined block may say: per length band its loss never exceeds the packets
      of the block really dropped; it is exactly those minus the unmarked packets that
      fell into the count while the 32-bit fields hold the counts; and it is exactly
      those when, besides, the sender's table was whole around the block. Its packets
      sent and its bytes are those of the block's packets, its times those of the block,
      and it counts as under test exactly when either end read it under a test. */
  ghost predicate Truthful(cfg: Config, net: Net, s: Side, b: Block) {
    && b.ts == b.n * cfg.secs && b.secs == cfg.secs
    && (b.underTest <==> ReadUnderTest(net.At(s), b.n) || ReadUnderTest(net.At(Other(s)), b.n))
    && b.sentS == Clamp(Sent(net, s, b.n, Short)) && b.sentL == Clamp(Sent(net, s, b.n, Long))
    && b.LostS() <= Lost(net, s, b.n, Short) && b.LostL() <= Lost(net, s, b.n, Long)
    && (Sent(net, s, b.n, Short) <= U32_MAX ==>
          && b.LostS() == SatSub(Lost(net, s, b.n, Short), Strays(net, s, b.n, Short))
          && (WholeAround(net.At(s), b.n) ==> b.LostS() == Lost(net, s, b.n, Short)))
    && (Sent(net, s, b.n, Long) <= U32_MAX ==>
          && b.LostL() == SatSub(Lost(net, s, b.n, Long), Strays(net, s, b.n, Long))
          && (WholeAround(net.At(s), b.n) ==> b.LostL() == Lost(net, s, b.n, Long)))
    && b.bytes == BytesIn(net.pkts, s, b.n, Short) + BytesIn(net.pkts, s, b.n, Long)
  }

  predicate ReadUnderTest(r: Router, n: nat) { n in r.out && r.out[n].underTest }

  /** Blocks joined from reports of the two ends' markers are truthful. */
  lemma JoinedIsTruthful(cfg: Config, net: Net, s: Side, own: seq<Sample>, rev: seq<Sample>, b: Block)
    requires cfg.Valid() && Inv(cfg, net) && ByteInv(cfg, net, s) && FlipsAround(net.At(s), b.n)
    requires ReportedBy(cfg, net.At(s), own) && ReportedBy(cfg, net.At(Other(s)), rev) && b in Join(own, rev)
    ensures Truthful(cfg, net, s, b)
  {
    hide Inv, Sent, Lost, Strays, ReportedBy, Join, WholeAround, BytesIn, FlipsAround, TxBytesOk;
    JoinHasBothHalves(cfg, net, s, own, rev, b);
    BothHalvesAreExact(cfg, net, s, b.n, Short);
    BothHalvesAreExact(cfg, net, s, b.n, Long);
    BandLoss(cfg, net, s, b.n, Short);
    BandLoss(cfg, net, s, b.n, Long);
    assert OutBytes(net, s, b.n);
  }

  /** The sender flipped to block n and its neighbours managing the interface, and
      its table was not rebuilt during them. */
  predicate WholeAround(r: Router, n: nat) {
    (n >= 1 ==> n - 1 in r.clean) && n in r.clean && n + 1 in r.clean
  }
}
