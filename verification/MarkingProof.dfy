/** The invariant of the alternate-marking runs, kept by every step. */
module MarkingProof {
  import opened AgentMark
  import opened NftChains
  import opened AlternateMarking

  // ── Block edges ──────────────────────────────────────────────────────────

  lemma EdgeNext(cfg: Config, n: int)
    ensures Edge(cfg, n + 1) == Edge(cfg, n) + cfg.Block()
  {
  }

  /** Less than a block apart in the right direction orders block numbers. */
  lemma EdgeOrder(cfg: Config, x: int, y: int)
    requires cfg.Valid()
    requires Edge(cfg, x) < Edge(cfg, y) + cfg.Block()
    ensures x <= y
  {
    if x > y {
      EdgeMono(cfg, y + 1, x);
    }
  }

  lemma EdgeMono(cfg: Config, x: int, y: int)
    requires cfg.Valid() && x <= y
    ensures Edge(cfg, x) <= Edge(cfg, y)
  {
  }

  /** The loop recomputes its block from the clock after a timely read: the next one. */
  lemma BlockAfterRead(cfg: Config, n: nat, clock: int)
    requires cfg.Valid()
    requires Edge(cfg, n) + cfg.Block() <= clock < Edge(cfg, n) + 2 * cfg.Block()
    ensures clock / cfg.Block() == n + 1
  {
    var l := cfg.Block();
    var q := clock / l;
    assert q * l <= clock < q * l + l;
    EdgeOrder(cfg, n + 1, q);
    EdgeOrder(cfg, q, n + 1);
  }

  // ── The invariant ────────────────────────────────────────────────────────

  ghost predicate BaselineOk(cfg: Config, r: Router, clock: int, name: SetName)
    requires name in r.last
  {
    var m := r.last[name].readFor;
    && ColourOf(m) == name.colour
    && m < r.pc.n
    && Edge(cfg, m) + cfg.Block() + cfg.half <= clock
    && r.last[name].sets.handle < r.kernel.nextHandle
  }

  ghost predicate OutOk(cfg: Config, r: Router, clock: int, n: nat)
    requires n in r.out
  {
    && n < r.pc.n && r.out[n].n == n
    && Edge(cfg, n) + cfg.Block() + cfg.half <= clock
    && forall name: SetName :: name.colour == ColourOf(n) ==> name in r.last && n <= r.last[name].readFor
  }

  ghost predicate RouterInv(cfg: Config, net: Net, s: Side) {
    var r := net.At(s);
    var clock := Clock(cfg, net, s);
    && Loaded(r.kernel)
    && (forall name: SetName :: r.kernel.sets[name].handle < r.kernel.nextHandle)
    && Edge(cfg, Cur(r.pc)) <= clock <= Deadline(cfg, r.pc)
    && (forall name :: name in r.last ==> BaselineOk(cfg, r, clock, name))
    && (forall n :: n in r.out ==> OutOk(cfg, r, clock, n))
    && (Cur(r.pc) !in r.missed && cfg.Iface(s) in r.kernel.colourMap ==>
          r.kernel.colourMap[cfg.Iface(s)] == ColourOf(Cur(r.pc)))
    && (forall k :: k in r.clean || k in r.missed ==> k <= Cur(r.pc))
    && (Cur(r.pc) in r.clean ==>
          && cfg.Iface(s) in r.kernel.colourMap
          && forall name: SetName :: HasIface(r.kernel, name, cfg.Iface(s)))
  }

  ghost predicate PacketOk(cfg: Config, net: Net, id: nat)
    requires id in net.pkts
  {
    var p := net.pkts[id];
    var sent := p.sentAt + cfg.Off(p.src);
    && p.during <= Cur(net.At(p.src).pc)
    && Edge(cfg, p.during) <= sent <= Edge(cfg, p.during) + cfg.Block() + cfg.guard
    && p.sentAt <= net.now
    && (net.InFlight(id) ==> net.now <= p.sentAt + cfg.delay)
    && (p.marked && p.during !in net.At(p.src).missed ==> p.hdr.bit == (ColourOf(p.during) == A))
    && (!p.marked ==> !p.hdr.bit && p.during !in net.At(p.src).clean)
    && (id in net.delivered ==>
          p.sentAt <= net.delivered[id].at <= net.now && net.delivered[id].at <= p.sentAt + cfg.delay)
  }

  /** A delivery's window is that of the receiver's colour-B baseline then. */
  ghost predicate WindowOk(cfg: Config, net: Net, id: nat)
    requires id in net.delivered && id in net.pkts && net.delivered[id].window.Some?
  {
    var p := net.pkts[id];
    var d := Other(p.src);
    var r := net.At(d);
    var w := net.delivered[id].window.value;
    var name := SetName(Rx, B, BandOf(p.hdr.len));
    var at := net.delivered[id].at + cfg.Off(d);
    && ColourOf(w) == B
    && name in r.last && w <= r.last[name].readFor + 2
    && Edge(cfg, w) - cfg.Block() + cfg.half <= at
    && (r.pc.n <= w || w in r.out ==> at <= Edge(cfg, w) + cfg.Block() + cfg.half + cfg.guard)
  }

  ghost predicate PacketInv(cfg: Config, net: Net) {
    && net.delivered.Keys <= net.pkts.Keys && net.dropped <= net.pkts.Keys
    && net.delivered.Keys !! net.dropped
    && (forall id :: id in net.pkts ==> PacketOk(cfg, net, id))
    && (forall id :: id in net.delivered && net.delivered[id].window.Some? ==> WindowOk(cfg, net, id))
  }

  /** The table has not been rebuilt since the baseline, which lists the interface. */
  predicate Stable(r: Router, name: SetName, iface: string) {
    && name in r.last && name in r.kernel.sets
    && r.last[name].sets.handle == r.kernel.sets[name].handle
    && iface in r.last[name].sets.elems
  }

  /** Since its baseline the element gained `gain` packets. */
  ghost predicate Gained(r: Router, name: SetName, iface: string, open: bool, gain: nat)
    requires Stable(r, name, iface)
  {
    && HasIface(r.kernel, name, iface)
    && r.last[name].sets.elems[iface].bytes <= r.kernel.sets[name].elems[iface].bytes
    && (open ==> r.kernel.sets[name].elems[iface].pkts == r.last[name].sets.elems[iface].pkts + gain)
  }

  /** Until the read that closes it, the sender's count is the packets of the next
      block of the colour. */
  ghost predicate TxOk(cfg: Config, net: Net, s: Side, c: Colour, b: Band) {
    var r := net.At(s);
    var name := SetName(Tx, c, b);
    Stable(r, name, cfg.Iface(s)) ==>
      var n := r.last[name].readFor + 2;
      Gained(r, name, cfg.Iface(s), FlipsAround(r, n) && r.pc.n <= n, |SentIn(net.pkts, s, n, b)|)
  }

  function ArrivedIn(net: Net, s: Side, n: nat, b: Band): nat {
    |DeliveredIn(net.pkts, net.delivered, s, n, b)| + |StrayIn(net.pkts, net.delivered, s, n, b)|
  }

  /** Likewise the receiver's: the block's packets that arrived, and for colour B
      the unmarked ones. */
  ghost predicate RxOk(cfg: Config, net: Net, s: Side, c: Colour, b: Band) {
    var d := Other(s);
    var r := net.At(d);
    var name := SetName(Rx, c, b);
    Stable(r, name, cfg.Iface(d)) ==>
      var n := r.last[name].readFor + 2;
      Gained(r, name, cfg.Iface(d), FlipsAround(net.At(s), n) && r.pc.n <= n, ArrivedIn(net, s, n, b))
  }

  ghost predicate OutTx(net: Net, s: Side, n: nat, b: Band) {
    n in net.At(s).out && !net.At(s).out[n].reset && FlipsAround(net.At(s), n) ==>
      PktsOf(net.At(s).out[n], Tx, b) == |SentIn(net.pkts, s, n, b)|
  }

  ghost predicate OutRx(net: Net, s: Side, n: nat, b: Band) {
    var r := net.At(Other(s));
    n in r.out && !r.out[n].reset && FlipsAround(net.At(s), n) ==>
      PktsOf(r.out[n], Rx, b) == ArrivedIn(net, s, n, b)
  }

  ghost predicate CountInv(cfg: Config, net: Net, s: Side) {
    && (forall c, b :: TxOk(cfg, net, s, c, b))
    && (forall c, b :: RxOk(cfg, net, s, c, b))
    && (forall n, b :: OutTx(net, s, n, b))
    && (forall n, b :: OutRx(net, s, n, b))
  }

  ghost predicate Inv(cfg: Config, net: Net) {
    && RouterInv(cfg, net, Left) && RouterInv(cfg, net, Right)
    && PacketInv(cfg, net)
    && CountInv(cfg, net, Left) && CountInv(cfg, net, Right)
  }

  lemma InitHolds(cfg: Config, net: Net)
    requires cfg.Valid() && Init(cfg, net)
    ensures Inv(cfg, net)
  {
  }

  // ── Time ─────────────────────────────────────────────────────────────────

  lemma WaitKeepsInv(cfg: Config, net: Net, net': Net)
    requires cfg.Valid() && Inv(cfg, net) && Wait(cfg, net, net')
    ensures Inv(cfg, net')
  {
    hide Edge, SentIn, DeliveredIn, StrayIn;
    WaitKeepsRouter(cfg, net, net', Left);
    WaitKeepsRouter(cfg, net, net', Right);
    SameCounts(cfg, net, net', Left);
    SameCounts(cfg, net, net', Right);
    forall id | id in net'.pkts ensures PacketOk(cfg, net', id) {
      assert PacketOk(cfg, net, id);
    }
    forall id | id in net'.delivered && net'.delivered[id].window.Some? ensures WindowOk(cfg, net', id) {
      assert WindowOk(cfg, net, id);
    }
  }

  lemma WaitKeepsRouter(cfg: Config, net: Net, net': Net, s: Side)
    requires RouterInv(cfg, net, s) && Wait(cfg, net, net')
    ensures RouterInv(cfg, net', s)
  {
  }

  // ── Counting packets ─────────────────────────────────────────────────────

  lemma SentAdds(pkts: map<nat, Packet>, id: nat, p: Packet, s: Side, n: nat, b: Band)
    requires id !in pkts
    ensures |SentIn(pkts[id := p], s, n, b)| == |SentIn(pkts, s, n, b)| + if InBlock(p, s, n, b) then 1 else 0
  {
    var before, after := SentIn(pkts, s, n, b), SentIn(pkts[id := p], s, n, b);
    if InBlock(p, s, n, b) {
      assert after == before + {id};
    } else {
      assert after == before;
    }
  }

  lemma SendLeavesArrivals(pkts: map<nat, Packet>, delivered: map<nat, Delivery>, id: nat, p: Packet,
                           s: Side, n: nat, b: Band)
    requires id !in pkts && delivered.Keys <= pkts.Keys
    ensures DeliveredIn(pkts[id := p], delivered, s, n, b) == DeliveredIn(pkts, delivered, s, n, b)
    ensures StrayIn(pkts[id := p], delivered, s, n, b) == StrayIn(pkts, delivered, s, n, b)
  {
  }

  lemma DeliveryAdds(pkts: map<nat, Packet>, delivered: map<nat, Delivery>, id: nat, d: Delivery,
                     s: Side, n: nat, b: Band)
    requires id in pkts && id !in delivered
    ensures |DeliveredIn(pkts, delivered[id := d], s, n, b)|
            == |DeliveredIn(pkts, delivered, s, n, b)| + if InBlock(pkts[id], s, n, b) then 1 else 0
  {
    hide InBlock;
    var before, after := DeliveredIn(pkts, delivered, s, n, b), DeliveredIn(pkts, delivered[id := d], s, n, b);
    if InBlock(pkts[id], s, n, b) {
      assert after == before + {id};
    } else {
      assert after == before;
    }
  }

  lemma DeliveryAddsStray(pkts: map<nat, Packet>, delivered: map<nat, Delivery>, id: nat, d: Delivery,
                          s: Side, n: nat, b: Band)
    requires id in pkts && id !in delivered
    ensures |StrayIn(pkts, delivered[id := d], s, n, b)|
            == |StrayIn(pkts, delivered, s, n, b)| + if Stray(pkts[id], d, s, n, b) then 1 else 0
  {
    hide Stray;
    var before, after := StrayIn(pkts, delivered, s, n, b), StrayIn(pkts, delivered[id := d], s, n, b);
    assert forall i :: i in before ==> i in delivered && i != id && i in after;
    assert forall i :: i in after && i != id ==> i in delivered && delivered[id := d][i] == delivered[i] && i in before;
    assert id in after <==> Stray(pkts[id], d, s, n, b);
    assert after == if Stray(pkts[id], d, s, n, b) then before + {id} else before;
  }

  // ── Sending ──────────────────────────────────────────────────────────────

  /** A tick moves one counter and nothing else of the table. */
  lemma TickFrame(k: Kernel, name: SetName, iface: string, len: nat, other: SetName, i: string)
    requires HasIface(k, name, iface) && other in k.sets
    ensures var k' := Tick(k, name, iface, len);
            && k'.colourMap == k.colourMap && k'.nextHandle == k.nextHandle
            && k'.sets.Keys == k.sets.Keys
            && k'.sets[other].handle == k.sets[other].handle
            && (HasIface(k', other, i) <==> HasIface(k, other, i))
            && (HasIface(k, other, i) && (other != name || i != iface) ==>
                  k'.sets[other].elems[i] == k.sets[other].elems[i])
            && (other == name && i == iface ==>
                  && k'.sets[other].elems[i].pkts == k.sets[other].elems[i].pkts + 1
                  && k'.sets[other].elems[i].bytes == k.sets[other].elems[i].bytes + len)
  {
  }

  /** What a send does to the sender's table. */
  ghost predicate SendEffect(k: Kernel, k': Kernel, iface: string, h: Hdr, h': Hdr) {
    if Marks(k, iface, h) then
      && HasIface(k, SetName(Tx, k.colourMap[iface], BandOf(h.len)), iface)
      && k' == Tick(k, SetName(Tx, k.colourMap[iface], BandOf(h.len)), iface, h.len)
      && h' == h.(bit := k.colourMap[iface] == A)
    else k' == k && h' == h
  }

  lemma SendHasEffect(k: Kernel, iface: string, h: Hdr)
    ensures SendEffect(k, MarkPacket(k, iface, h).0, iface, h, MarkPacket(k, iface, h).1)
  {
    MarkTicksOneElement(k, iface, h);
  }

  /** The step, with the chains replaced by their effect. */
  ghost predicate Sent(cfg: Config, net: Net, net': Net, s: Side, id: nat, h: Hdr) {
    var r, r' := net.At(s), net'.At(s);
    && id !in net.pkts && !h.bit
    && (exists h' ::
          && SendEffect(r.kernel, r'.kernel, cfg.Iface(s), h, h')
          && net'.pkts == net.pkts[id := Packet(s, Cur(r.pc), Marks(r.kernel, cfg.Iface(s), h), h', net.now)])
    && r' == r.(kernel := r'.kernel)
    && net'.At(Other(s)) == net.At(Other(s))
    && net'.now == net.now && net'.delivered == net.delivered && net'.dropped == net.dropped
  }

  lemma SendIsSent(cfg: Config, net: Net, net': Net, s: Side, id: nat, h: Hdr)
    requires Send(cfg, net, net', s, id, h)
    ensures Sent(cfg, net, net', s, id, h)
  {
    var r := net.At(s);
    SendHasEffect(r.kernel, cfg.Iface(s), h);
    hide MarkPacket, SendEffect;
    var (k, h') := MarkPacket(r.kernel, cfg.Iface(s), h);
    assert SendEffect(r.kernel, net'.At(s).kernel, cfg.Iface(s), h, h');
  }

  lemma SendKeepsRouter(cfg: Config, net: Net, net': Net, s: Side, id: nat, h: Hdr)
    requires RouterInv(cfg, net, s) && Sent(cfg, net, net', s, id, h)
    ensures RouterInv(cfg, net', s)
  {
    hide Edge, Tick;
    var r, r' := net.At(s), net'.At(s);
    var iface := cfg.Iface(s);
    if Marks(r.kernel, iface, h) {
      var ticked := SetName(Tx, r.kernel.colourMap[iface], BandOf(h.len));
      forall name: SetName
        ensures name in r'.kernel.sets && r'.kernel.sets[name].handle == r.kernel.sets[name].handle
        ensures HasIface(r'.kernel, name, iface) <==> HasIface(r.kernel, name, iface)
        ensures r'.kernel.nextHandle == r.kernel.nextHandle && r'.kernel.colourMap == r.kernel.colourMap
      {
        TickFrame(r.kernel, ticked, iface, h.len, name, iface);
      }
      assert r'.kernel.nextHandle == r.kernel.nextHandle && r'.kernel.colourMap == r.kernel.colourMap by {
        TickFrame(r.kernel, ticked, iface, h.len, ticked, iface);
      }
    }
    forall name | name in r'.last ensures BaselineOk(cfg, r', Clock(cfg, net', s), name) {
      assert BaselineOk(cfg, r, Clock(cfg, net, s), name);
    }
    forall n | n in r'.out ensures OutOk(cfg, r', Clock(cfg, net', s), n) {
      assert OutOk(cfg, r, Clock(cfg, net, s), n);
    }
  }

  lemma NewPacketOk(cfg: Config, net: Net, net': Net, s: Side, id: nat, h: Hdr)
    requires cfg.Valid() && RouterInv(cfg, net, s) && Sent(cfg, net, net', s, id, h)
    requires net.delivered.Keys <= net.pkts.Keys && net.dropped <= net.pkts.Keys
    ensures PacketOk(cfg, net', id)
  {
    hide Tick, BaselineOk, OutOk;
    var r := net.At(s);
    EdgeNext(cfg, Cur(r.pc) - 1);
    hide Edge;
    if Cur(r.pc) in r.clean {
      assert Marks(r.kernel, cfg.Iface(s), h);
    }
  }

  lemma SendKeepsPackets(cfg: Config, net: Net, net': Net, s: Side, id: nat, h: Hdr)
    requires cfg.Valid() && RouterInv(cfg, net, s) && PacketInv(cfg, net) && Sent(cfg, net, net', s, id, h)
    ensures PacketInv(cfg, net')
  {
    NewPacketOk(cfg, net, net', s, id, h);
    hide RouterInv, SendEffect, Edge;
    forall i | i in net'.pkts && i != id ensures PacketOk(cfg, net', i) {
      assert PacketOk(cfg, net, i);
    }
    forall i | i in net'.delivered && net'.delivered[i].window.Some? ensures WindowOk(cfg, net', i) {
      assert WindowOk(cfg, net, i);
    }
  }

  lemma SendKeepsCounts(cfg: Config, net: Net, net': Net, s: Side, id: nat, h: Hdr)
    requires cfg.Valid() && Inv(cfg, net) && Sent(cfg, net, net', s, id, h)
    ensures CountInv(cfg, net', s) && CountInv(cfg, net', Other(s))
  {
    hide Edge, Sent, TxOk, RxOk, OutTx, OutRx, RouterInv;
    forall c, b
      ensures TxOk(cfg, net', s, c, b) && RxOk(cfg, net', s, c, b)
      ensures TxOk(cfg, net', Other(s), c, b) && RxOk(cfg, net', Other(s), c, b)
    {
      SendKeepsTx(cfg, net, net', s, id, h, c, b);
      SendLeavesOthers(cfg, net, net', s, id, h, c, b);
    }
    forall n, b
      ensures OutTx(net', s, n, b) && OutRx(net', s, n, b)
      ensures OutTx(net', Other(s), n, b) && OutRx(net', Other(s), n, b)
    {
      SendKeepsOut(cfg, net, net', s, id, h, n, b, s);
      SendKeepsOut(cfg, net, net', s, id, h, n, b, Other(s));
    }
  }

  /** What is sent now belongs to no block read already. */
  lemma SendKeepsOut(cfg: Config, net: Net, net': Net, s: Side, id: nat, h: Hdr, n: nat, b: Band, d: Side)
    requires RouterInv(cfg, net, s) && Sent(cfg, net, net', s, id, h)
    requires net.delivered.Keys <= net.pkts.Keys
    requires OutTx(net, d, n, b) && OutRx(net, d, n, b)
    ensures OutTx(net', d, n, b) && OutRx(net', d, n, b)
  {
    hide Tick, SentIn, DeliveredIn, StrayIn;
    SentAdds(net.pkts, id, net'.pkts[id], d, n, b);
    SendLeavesArrivals(net.pkts, net.delivered, id, net'.pkts[id], d, n, b);
    if n in net.At(s).out {
      assert OutOk(cfg, net.At(s), Clock(cfg, net, s), n);
    }
  }

  /** A tick changes no handle and no membership, so stability is as it was. */
  lemma StableAcrossTick(r: Router, r': Router, ticked: SetName, name: SetName, iface: string, len: nat)
    requires HasIface(r.kernel, ticked, iface) && r' == r.(kernel := Tick(r.kernel, ticked, iface, len))
    ensures Stable(r', name, iface) <==> Stable(r, name, iface)
  {
  }

  /** A tick adds one to the element it names and leaves every other as it was. */
  lemma GainedAcrossTick(r: Router, r': Router, ticked: SetName, name: SetName, iface: string, len: nat,
                         open: bool, gain: nat)
    requires HasIface(r.kernel, ticked, iface) && r' == r.(kernel := Tick(r.kernel, ticked, iface, len))
    requires Stable(r, name, iface) && Gained(r, name, iface, open, gain)
    ensures Stable(r', name, iface)
    ensures Gained(r', name, iface, open, gain + if name == ticked then 1 else 0)
  {
    StableAcrossTick(r, r', ticked, name, iface, len);
    TickFrame(r.kernel, ticked, iface, len, name, iface);
    hide Tick;
  }

  /** While the baseline of block n - 2 is open, a marked packet ticks its set exactly
      when it is sent during block n. */
  lemma SendTicksItsBlock(r: Router, c: Colour, m: nat, iface: string)
    requires ColourOf(m) == c && m < r.pc.n <= m + 2 && FlipsAround(r, m + 2)
    requires iface in r.kernel.colourMap
    requires Cur(r.pc) !in r.missed ==> r.kernel.colourMap[iface] == ColourOf(Cur(r.pc))
    ensures r.kernel.colourMap[iface] == c <==> Cur(r.pc) == m + 2
  {
  }

  /** A tick keeps an element's account when the packets it should show grow with it. */
  lemma TickKeepsGain(r: Router, r': Router, ticked: SetName, name: SetName, iface: string, len: nat,
                      open: bool, gain: nat, gain': nat)
    requires HasIface(r.kernel, ticked, iface) && r' == r.(kernel := Tick(r.kernel, ticked, iface, len))
    requires Stable(r, name, iface) ==> Gained(r, name, iface, open, gain)
    requires Stable(r, name, iface) && open ==> gain' == gain + if name == ticked then 1 else 0
    ensures Stable(r', name, iface) ==> Gained(r', name, iface, open, gain')
  {
    StableAcrossTick(r, r', ticked, name, iface, len);
    hide Stable, Gained, Tick;
    if Stable(r, name, iface) {
      GainedAcrossTick(r, r', ticked, name, iface, len, open, gain);
      WrongGain(r', name, iface, open, gain + if name == ticked then 1 else 0, gain');
    }
  }

  /** What a send does to the sender's table and to the packets. */
  lemma SendMarks(cfg: Config, net: Net, net': Net, s: Side, id: nat, h: Hdr)
    requires Sent(cfg, net, net', s, id, h)
    ensures id !in net.pkts && id in net'.pkts && net'.pkts == net.pkts[id := net'.pkts[id]]
    ensures var (r, p) := (net.At(s), net'.pkts[id]);
            && p.src == s && p.during == Cur(r.pc) && p.hdr.len == h.len
            && (p.marked <==> Marks(r.kernel, cfg.Iface(s), h))
    ensures var r := net.At(s);
            net'.At(s) == if Marks(r.kernel, cfg.Iface(s), h)
              then r.(kernel := Tick(r.kernel, SetName(Tx, r.kernel.colourMap[cfg.Iface(s)], BandOf(h.len)),
                                     cfg.Iface(s), h.len))
              else r
  {
    hide Tick;
  }

  /** What a baseline of colour c says of the table's time and mark. */
  lemma BaselineTime(cfg: Config, net: Net, s: Side, c: Colour, name: SetName)
    requires RouterInv(cfg, net, s) && name in net.At(s).last && name.colour == c
    ensures var r := net.At(s);
            && ColourOf(r.last[name].readFor) == c && r.last[name].readFor < r.pc.n
            && (cfg.Iface(s) in r.kernel.colourMap && Cur(r.pc) !in r.missed ==>
                  r.kernel.colourMap[cfg.Iface(s)] == ColourOf(Cur(r.pc)))
  {
    assert BaselineOk(cfg, net.At(s), Clock(cfg, net, s), name);
  }

  /** A marked packet ticks the element of its own block and band. */
  lemma SendKeepsTx(cfg: Config, net: Net, net': Net, s: Side, id: nat, h: Hdr, c: Colour, b: Band)
    requires RouterInv(cfg, net, s) && TxOk(cfg, net, s, c, b) && Sent(cfg, net, net', s, id, h)
    ensures TxOk(cfg, net', s, c, b)
  {
    hide Sent, Gained, Tick, SentIn, RouterInv;
    SendMarks(cfg, net, net', s, id, h);
    var r, r' := net.At(s), net'.At(s);
    var name, iface := SetName(Tx, c, b), cfg.Iface(s);
    if name in r.last {
      BaselineTime(cfg, net, s, c, name);
      var m := r.last[name].readFor;
      var n, open := m + 2, FlipsAround(r, m + 2) && r.pc.n <= m + 2;
      SentAdds(net.pkts, id, net'.pkts[id], s, n, b);
      if Marks(r.kernel, iface, h) {
        if open {
          SendTicksItsBlock(r, c, m, iface);
        }
        TickKeepsGain(r, r', SetName(Tx, r.kernel.colourMap[iface], BandOf(h.len)), name, iface, h.len, open,
                      |SentIn(net.pkts, s, n, b)|, |SentIn(net'.pkts, s, n, b)|);
      }
    }
  }

  /** What a closed baseline gained is not claimed. */
  lemma WrongGain(r: Router, name: SetName, iface: string, open: bool, gain: nat, other: nat)
    requires Stable(r, name, iface) && Gained(r, name, iface, open, gain)
    requires open ==> gain == other
    ensures Gained(r, name, iface, open, other)
  {
  }

  lemma SendLeavesOthers(cfg: Config, net: Net, net': Net, s: Side, id: nat, h: Hdr, c: Colour, b: Band)
    requires net.delivered.Keys <= net.pkts.Keys && Sent(cfg, net, net', s, id, h)
    requires TxOk(cfg, net, Other(s), c, b) && RxOk(cfg, net, s, c, b) && RxOk(cfg, net, Other(s), c, b)
    ensures TxOk(cfg, net', Other(s), c, b) && RxOk(cfg, net', s, c, b) && RxOk(cfg, net', Other(s), c, b)
  {
    hide Tick, SentIn, DeliveredIn, StrayIn, Gained, Stable;
    var o := Other(s);
    var r, r', q := net.At(s), net'.At(s), net.At(o);
    var p, iface := net'.pkts[id], cfg.Iface(s);
    var tx, rx := SetName(Tx, c, b), SetName(Rx, c, b);
    if tx in q.last {
      SentAdds(net.pkts, id, p, o, q.last[tx].readFor + 2, b);
    }
    if rx in q.last {
      SendLeavesArrivals(net.pkts, net.delivered, id, p, s, q.last[rx].readFor + 2, b);
    }
    StableNeedsBaseline(q, rx, cfg.Iface(o));
    StableNeedsBaseline(q, tx, cfg.Iface(o));
    StableNeedsBaseline(r, rx, iface);
    if rx in r.last {
      var n := r.last[rx].readFor + 2;
      SendLeavesArrivals(net.pkts, net.delivered, id, p, o, n, b);
      if Marks(r.kernel, iface, h) {
        var ticked := SetName(Tx, r.kernel.colourMap[iface], BandOf(h.len));
        StableAcrossTick(r, r', ticked, rx, iface, h.len);
        if Stable(r, rx, iface) {
          GainedAcrossTick(r, r', ticked, rx, iface, h.len, FlipsAround(q, n) && r.pc.n <= n, ArrivedIn(net, o, n, b));
        }
      }
    }
    StableNeedsBaseline(r', rx, iface);
  }

  lemma StableNeedsBaseline(r: Router, name: SetName, iface: string)
    ensures Stable(r, name, iface) ==> name in r.last
  {
  }

  lemma SendKeepsInv(cfg: Config, net: Net, net': Net, s: Side, id: nat, h: Hdr)
    requires cfg.Valid() && Inv(cfg, net) && Send(cfg, net, net', s, id, h)
    ensures Inv(cfg, net')
  {
    SendIsSent(cfg, net, net', s, id, h);
    hide RouterInv, PacketInv, CountInv, Send, SendEffect;
    SendKeepsRouter(cfg, net, net', s, id, h);
    SameRouter(cfg, net, net', Other(s));
    SendKeepsPackets(cfg, net, net', s, id, h);
    SendKeepsCounts(cfg, net, net', s, id, h);
  }

  // ── Delivering ───────────────────────────────────────────────────────────

  /** What an arrival does to the receiver's table: one tick of the element of the
      packet's own colour and band. */
  ghost predicate ArriveEffect(k: Kernel, k': Kernel, iface: string, h: Hdr) {
    var name := SetName(Rx, if h.bit then A else B, BandOf(h.len));
    if HasIface(k, name, iface) then k' == Tick(k, name, iface, h.len) else k' == k
  }

  ghost predicate Arrived(cfg: Config, net: Net, net': Net, id: nat) {
    && net.InFlight(id)
    && var p := net.pkts[id];
       var d := Other(p.src);
       var r, r' := net.At(d), net'.At(d);
       && ArriveEffect(r.kernel, r'.kernel, cfg.Iface(d), p.hdr)
       && r' == r.(kernel := r'.kernel)
       && net'.At(p.src) == net.At(p.src)
       && net'.delivered == net.delivered[id := Delivery(net.now, Window(r, BandOf(p.hdr.len)))]
       && net'.now == net.now && net'.pkts == net.pkts && net'.dropped == net.dropped
  }

  lemma DeliverIsArrived(cfg: Config, net: Net, net': Net, id: nat)
    requires Deliver(cfg, net, net', id)
    ensures Arrived(cfg, net, net', id)
  {
    var p := net.pkts[id];
    var d := Other(p.src);
    CountTicksOneElement(net.At(d).kernel, cfg.Iface(d), p.hdr);
    hide CountPacket, Tick, HasIface;
  }

  lemma ArriveKeepsRouter(cfg: Config, net: Net, net': Net, id: nat)
    requires Arrived(cfg, net, net', id)
    requires RouterInv(cfg, net, Other(net.pkts[id].src))
    ensures RouterInv(cfg, net', Other(net.pkts[id].src))
  {
    hide Edge, Tick;
    var p := net.pkts[id];
    var d := Other(p.src);
    var r, r' := net.At(d), net'.At(d);
    var iface := cfg.Iface(d);
    var ticked := SetName(Rx, if p.hdr.bit then A else B, BandOf(p.hdr.len));
    if HasIface(r.kernel, ticked, iface) {
      forall name: SetName
        ensures name in r'.kernel.sets && r'.kernel.sets[name].handle == r.kernel.sets[name].handle
        ensures HasIface(r'.kernel, name, iface) <==> HasIface(r.kernel, name, iface)
      {
        TickFrame(r.kernel, ticked, iface, p.hdr.len, name, iface);
      }
      TickFrame(r.kernel, ticked, iface, p.hdr.len, ticked, iface);
    }
    forall name | name in r'.last ensures BaselineOk(cfg, r', Clock(cfg, net', d), name) {
      assert BaselineOk(cfg, r, Clock(cfg, net, d), name);
    }
    forall n | n in r'.out ensures OutOk(cfg, r', Clock(cfg, net', d), n) {
      assert OutOk(cfg, r, Clock(cfg, net, d), n);
    }
  }

  /** The window a router's baseline is open for, and its times. */
  lemma WindowTimes(cfg: Config, r: Router, clock: int, name: SetName)
    requires cfg.Valid() && name in r.last && BaselineOk(cfg, r, clock, name) && clock <= Deadline(cfg, r.pc)
    ensures var w := r.last[name].readFor + 2;
            && ColourOf(w) == name.colour && Edge(cfg, w) - cfg.Block() + cfg.half <= clock
            && (r.pc.n <= w ==> clock <= Edge(cfg, w) + cfg.Block() + cfg.half + cfg.guard)
  {
    var m := r.last[name].readFor;
    EdgeNext(cfg, m);
    EdgeNext(cfg, m + 1);
    if r.pc.n <= m + 2 {
      EdgeMono(cfg, r.pc.n, m + 2);
    }
    hide Edge;
  }

  /** The window of an arrival is the receiver's current one, so its time is within. */
  lemma NewWindowOk(cfg: Config, net: Net, net': Net, id: nat)
    requires cfg.Valid() && Arrived(cfg, net, net', id)
    requires RouterInv(cfg, net, Other(net.pkts[id].src))
    requires net'.delivered[id].window.Some?
    ensures WindowOk(cfg, net', id)
  {
    hide Edge, Tick, HasIface, ArriveEffect, Loaded;
    var p := net.pkts[id];
    var d := Other(p.src);
    var r, clock := net.At(d), Clock(cfg, net, d);
    var name := SetName(Rx, B, BandOf(p.hdr.len));
    var w := r.last[name].readFor + 2;
    assert BaselineOk(cfg, r, clock, name);
    assert w in r.out ==> OutOk(cfg, r, clock, w);
    hide RouterInv;
    WindowTimes(cfg, r, clock, name);
    hide BaselineOk;
  }

  lemma ArriveKeepsPacket(cfg: Config, net: Net, net': Net, id: nat, i: nat)
    requires cfg.Valid() && Arrived(cfg, net, net', id) && i in net.pkts && PacketOk(cfg, net, i)
    requires i == id ==> net.pkts[i].sentAt <= net.now
    ensures PacketOk(cfg, net', i)
  {
    hide Edge, ArriveEffect, Window;
    assert net'.At(net.pkts[i].src).pc == net.At(net.pkts[i].src).pc;
  }

  lemma ArriveKeepsWindow(cfg: Config, net: Net, net': Net, id: nat, i: nat)
    requires Arrived(cfg, net, net', id) && i != id
    requires i in net.delivered && i in net.pkts && net.delivered[i].window.Some? && WindowOk(cfg, net, i)
    ensures WindowOk(cfg, net', i)
  {
    hide Edge, ArriveEffect, Window;
  }

  lemma ArriveKeepsPackets(cfg: Config, net: Net, net': Net, id: nat)
    requires cfg.Valid() && PacketInv(cfg, net) && Arrived(cfg, net, net', id)
    requires RouterInv(cfg, net, Other(net.pkts[id].src))
    ensures PacketInv(cfg, net')
  {
    if net'.delivered[id].window.Some? {
      NewWindowOk(cfg, net, net', id);
    }
    assert net.pkts[id].sentAt <= net.now by {
      assert PacketOk(cfg, net, id);
    }
    hide RouterInv, ArriveEffect, Edge, PacketOk, WindowOk;
    forall i | i in net'.pkts ensures PacketOk(cfg, net', i) {
      ArriveKeepsPacket(cfg, net, net', id, i);
    }
    forall i | i in net'.delivered && net'.delivered[i].window.Some? ensures WindowOk(cfg, net', i) {
      if i != id {
        ArriveKeepsWindow(cfg, net, net', id, i);
      }
    }
  }

  /** Timing: a packet that arrives between the receiver's reads of blocks m and m + 2
      was sent during block m + 2 or a neighbour of it; so if it has their colour it is
      of block m + 2. */
  lemma ArrivalIsOfOpenBlock(cfg: Config, net: Net, id: nat, m: nat)
    requires cfg.Valid() && net.InFlight(id) && PacketOk(cfg, net, id)
    requires var r := net.At(Other(net.pkts[id].src));
             var clock := Clock(cfg, net, Other(net.pkts[id].src));
             && Edge(cfg, m) + cfg.Block() + cfg.half <= clock <= Deadline(cfg, r.pc)
             && r.pc.n <= m + 2
    ensures m + 1 <= net.pkts[id].during <= m + 3
    ensures ColourOf(net.pkts[id].during) == ColourOf(m) ==> net.pkts[id].during == m + 2
  {
    var p := net.pkts[id];
    var k := p.during;
    var r := net.At(Other(p.src));
    EdgeMono(cfg, r.pc.n, m + 2);
    EdgeNext(cfg, m + 2);
    if k <= m {
      EdgeMono(cfg, k, m);
    }
    EdgeOrder(cfg, k, m + 3);
  }

  /** Timing: nothing of block n arrives once the receiver has read it. */
  lemma NothingArrivesAfterRead(cfg: Config, net: Net, id: nat, n: nat)
    requires cfg.Valid() && net.InFlight(id) && PacketOk(cfg, net, id)
    requires Edge(cfg, n) + cfg.Block() + cfg.half <= Clock(cfg, net, Other(net.pkts[id].src))
    ensures net.pkts[id].during != n
  {
  }

  lemma ArriveKeepsRx(cfg: Config, net: Net, net': Net, id: nat, c: Colour, b: Band)
    requires cfg.Valid() && Arrived(cfg, net, net', id) && PacketOk(cfg, net, id)
    requires RouterInv(cfg, net, Other(net.pkts[id].src))
    requires RxOk(cfg, net, net.pkts[id].src, c, b)
    ensures RxOk(cfg, net', net.pkts[id].src, c, b)
  {
    hide Tick, DeliveredIn, StrayIn, OutOk, Edge, Gained, Stable;
    var p := net.pkts[id];
    var s, d := p.src, Other(p.src);
    var r, r' := net.At(d), net'.At(d);
    var name, iface := SetName(Rx, c, b), cfg.Iface(d);
    var ticked := SetName(Rx, if p.hdr.bit then A else B, BandOf(p.hdr.len));
    StableNeedsBaseline(r, name, iface);
    if HasIface(r.kernel, ticked, iface) {
      StableAcrossTick(r, r', ticked, name, iface, p.hdr.len);
    }
    if Stable(r, name, iface) {
      var n := r.last[name].readFor + 2;
      var open := FlipsAround(net.At(s), n) && r.pc.n <= n;
      assert BaselineOk(cfg, r, Clock(cfg, net, d), name);
      DeliveryAdds(net.pkts, net.delivered, id, net'.delivered[id], s, n, b);
      DeliveryAddsStray(net.pkts, net.delivered, id, net'.delivered[id], s, n, b);
      if open {
        ArrivalTicks(cfg, net, id, name, net'.delivered[id]);
      }
      hide RouterInv, BaselineOk, PacketOk, FlipsAround, InBlock, Stray;
      ArriveGains(r, r', ticked, name, iface, p.hdr.len, open, ArrivedIn(net, s, n, b), ArrivedIn(net', s, n, b));
    }
  }

  /** An element that is not there is not ticked: then the name is another one. */
  lemma ArriveGains(r: Router, r': Router, ticked: SetName, name: SetName, iface: string, len: nat,
                    open: bool, gain: nat, after: nat)
    requires Stable(r, name, iface) && Gained(r, name, iface, open, gain)
    requires r' == if HasIface(r.kernel, ticked, iface) then r.(kernel := Tick(r.kernel, ticked, iface, len)) else r
    requires open ==> after == gain + if name == ticked then 1 else 0
    ensures Stable(r', name, iface) && Gained(r', name, iface, open, after)
  {
    if HasIface(r.kernel, ticked, iface) {
      GainedAcrossTick(r, r', ticked, name, iface, len, open, gain);
    }
    hide Tick;
  }

  /** An arrival belongs to the open block of a baseline exactly when it ticks it. */
  lemma ArrivalTicks(cfg: Config, net: Net, id: nat, name: SetName, dv: Delivery)
    requires cfg.Valid() && net.InFlight(id) && PacketOk(cfg, net, id)
    requires var d := Other(net.pkts[id].src);
             var r := net.At(d);
             && name in r.last && name.dir == Rx
             && BaselineOk(cfg, r, Clock(cfg, net, d), name)
             && Clock(cfg, net, d) <= Deadline(cfg, r.pc)
             && r.pc.n <= r.last[name].readFor + 2
             && FlipsAround(net.At(net.pkts[id].src), r.last[name].readFor + 2)
             && dv == Delivery(net.now, Window(r, BandOf(net.pkts[id].hdr.len)))
             && (forall x :: x in r.last ==> BaselineOk(cfg, r, Clock(cfg, net, d), x))
    ensures var p := net.pkts[id];
            var n := net.At(Other(p.src)).last[name].readFor + 2;
            (if InBlock(p, p.src, n, name.band) then 1 else 0) + (if Stray(p, dv, p.src, n, name.band) then 1 else 0)
            == if name == SetName(Rx, if p.hdr.bit then A else B, BandOf(p.hdr.len)) then 1 else 0
  {
    hide Edge;
    var p := net.pkts[id];
    var d := Other(p.src);
    var r := net.At(d);
    ArrivalIsOfOpenBlock(cfg, net, id, r.last[name].readFor);
    var bName := SetName(Rx, B, BandOf(p.hdr.len));
    if bName in r.last {
      assert BaselineOk(cfg, r, Clock(cfg, net, d), bName);
    }
  }

  lemma ArriveKeepsCounts(cfg: Config, net: Net, net': Net, id: nat)
    requires cfg.Valid() && Arrived(cfg, net, net', id)
    requires PacketOk(cfg, net, id)
    requires RouterInv(cfg, net, Other(net.pkts[id].src))
    requires CountInv(cfg, net, net.pkts[id].src) && CountInv(cfg, net, Other(net.pkts[id].src))
    ensures CountInv(cfg, net', net.pkts[id].src) && CountInv(cfg, net', Other(net.pkts[id].src))
  {
    hide Edge, Tick, SentIn, DeliveredIn, StrayIn, Gained, BaselineOk, PacketOk, InBlock, Stray;
    var s, o := net.pkts[id].src, Other(net.pkts[id].src);
    forall c, b ensures RxOk(cfg, net', s, c, b) {
      assert RxOk(cfg, net, s, c, b);
      ArriveKeepsRx(cfg, net, net', id, c, b);
    }
    forall c, b ensures TxOk(cfg, net', s, c, b) && TxOk(cfg, net', o, c, b) && RxOk(cfg, net', o, c, b) {
      assert TxOk(cfg, net, s, c, b) && TxOk(cfg, net, o, c, b) && RxOk(cfg, net, o, c, b);
      ArriveLeavesTx(cfg, net, net', id, c, b);
      ArriveLeavesRx(cfg, net, net', id, c, b);
    }
    forall n, b ensures OutTx(net', s, n, b) && OutTx(net', o, n, b) && OutRx(net', s, n, b) && OutRx(net', o, n, b) {
      assert OutTx(net, s, n, b) && OutTx(net, o, n, b) && OutRx(net, s, n, b) && OutRx(net, o, n, b);
      ArriveKeepsOut(cfg, net, net', id, n, b);
    }
  }

  /** An arrival ticks no tx element. */
  lemma ArriveLeavesTx(cfg: Config, net: Net, net': Net, id: nat, c: Colour, b: Band)
    requires Arrived(cfg, net, net', id)
    requires TxOk(cfg, net, net.pkts[id].src, c, b) && TxOk(cfg, net, Other(net.pkts[id].src), c, b)
    ensures TxOk(cfg, net', net.pkts[id].src, c, b) && TxOk(cfg, net', Other(net.pkts[id].src), c, b)
  {
    hide Tick, SentIn, Gained;
    var p := net.pkts[id];
    var o := Other(p.src);
    var r, r', name := net.At(o), net'.At(o), SetName(Tx, c, b);
    var ticked := SetName(Rx, if p.hdr.bit then A else B, BandOf(p.hdr.len));
    if HasIface(r.kernel, ticked, cfg.Iface(o)) && name in r.last {
      var n := r.last[name].readFor + 2;
      TickKeepsGain(r, r', ticked, name, cfg.Iface(o), p.hdr.len, FlipsAround(r, n) && r.pc.n <= n,
                    |SentIn(net.pkts, o, n, b)|, |SentIn(net'.pkts, o, n, b)|);
    }
  }

  /** An arrival is none of what the receiver sent itself. */
  lemma ArriveLeavesRx(cfg: Config, net: Net, net': Net, id: nat, c: Colour, b: Band)
    requires Arrived(cfg, net, net', id) && RxOk(cfg, net, Other(net.pkts[id].src), c, b)
    ensures RxOk(cfg, net', Other(net.pkts[id].src), c, b)
  {
    hide Tick, DeliveredIn, StrayIn, ArriveEffect;
    var p := net.pkts[id];
    var q, name := net.At(p.src), SetName(Rx, c, b);
    if name in q.last {
      DeliveryAdds(net.pkts, net.delivered, id, net'.delivered[id], Other(p.src), q.last[name].readFor + 2, b);
      DeliveryAddsStray(net.pkts, net.delivered, id, net'.delivered[id], Other(p.src), q.last[name].readFor + 2, b);
    }
  }

  lemma ArriveKeepsOut(cfg: Config, net: Net, net': Net, id: nat, n: nat, b: Band)
    requires cfg.Valid() && Arrived(cfg, net, net', id) && PacketOk(cfg, net, id)
    requires RouterInv(cfg, net, Other(net.pkts[id].src))
    requires OutTx(net, net.pkts[id].src, n, b) && OutTx(net, Other(net.pkts[id].src), n, b)
    requires OutRx(net, net.pkts[id].src, n, b) && OutRx(net, Other(net.pkts[id].src), n, b)
    ensures OutTx(net', net.pkts[id].src, n, b) && OutTx(net', Other(net.pkts[id].src), n, b)
    ensures OutRx(net', net.pkts[id].src, n, b) && OutRx(net', Other(net.pkts[id].src), n, b)
  {
    hide Edge, Tick, SentIn, DeliveredIn, StrayIn, HasIface, PacketOk, ArriveEffect;
    var p := net.pkts[id];
    var s, o := p.src, Other(p.src);
    var r := net.At(o);
    DeliveryAdds(net.pkts, net.delivered, id, net'.delivered[id], o, n, b);
    DeliveryAddsStray(net.pkts, net.delivered, id, net'.delivered[id], o, n, b);
    if n in r.out {
      assert OutOk(cfg, r, Clock(cfg, net, o), n);
      NothingArrivesAfterRead(cfg, net, id, n);
      var bName := SetName(Rx, B, BandOf(p.hdr.len));
      if bName in r.last {
        assert BaselineOk(cfg, r, Clock(cfg, net, o), bName);
      }
      DeliveryAdds(net.pkts, net.delivered, id, net'.delivered[id], s, n, b);
      DeliveryAddsStray(net.pkts, net.delivered, id, net'.delivered[id], s, n, b);
    }
  }

  lemma DeliverKeepsInv(cfg: Config, net: Net, net': Net, id: nat)
    requires cfg.Valid() && Inv(cfg, net) && Deliver(cfg, net, net', id)
    ensures Inv(cfg, net')
  {
    DeliverIsArrived(cfg, net, net', id);
    hide CountInv, Deliver, Edge, ArriveEffect;
    ArriveKeepsRouter(cfg, net, net', id);
    SameRouter(cfg, net, net', net.pkts[id].src);
    ArriveKeepsPackets(cfg, net, net', id);
    ArriveKeepsCounts(cfg, net, net', id);
  }

  lemma SameRouter(cfg: Config, net: Net, net': Net, s: Side)
    requires RouterInv(cfg, net, s) && net'.At(s) == net.At(s) && net'.now == net.now
    ensures RouterInv(cfg, net', s)
  {
  }

  lemma DropKeepsInv(cfg: Config, net: Net, net': Net, id: nat)
    requires cfg.Valid() && Inv(cfg, net) && Drop(net, net', id)
    ensures Inv(cfg, net')
  {
    hide Edge, SentIn, DeliveredIn, StrayIn, Gained, CountInv;
    SameRouter(cfg, net, net', Left);
    SameRouter(cfg, net, net', Right);
    forall i | i in net'.pkts ensures PacketOk(cfg, net', i) {
      assert PacketOk(cfg, net, i);
    }
    forall i | i in net'.delivered && net'.delivered[i].window.Some? ensures WindowOk(cfg, net', i) {
      assert WindowOk(cfg, net, i);
    }
    SameCounts(cfg, net, net', Left);
    SameCounts(cfg, net, net', Right);
  }

  lemma SameCounts(cfg: Config, net: Net, net': Net, s: Side)
    requires CountInv(cfg, net, s)
    requires net'.left == net.left && net'.right == net.right
    requires net'.pkts == net.pkts && net'.delivered == net.delivered
    ensures CountInv(cfg, net', s)
  {
    forall c, b ensures TxOk(cfg, net', s, c, b) && RxOk(cfg, net', s, c, b) {
      assert TxOk(cfg, net, s, c, b) && RxOk(cfg, net, s, c, b);
    }
    forall n, b ensures OutTx(net', s, n, b) && OutRx(net', s, n, b) {
      assert OutTx(net, s, n, b) && OutRx(net, s, n, b);
    }
  }

  // ── Flipping and reloading ───────────────────────────────────────────────

  /** What an assertion, or its failure, leaves of a table. */
  lemma FlipFrame(k: Kernel, ifaces: seq<string>, n: nat, ok: bool, name: SetName, i: string)
    requires name in k.sets
    ensures var k' := if ok then AssertBlock(k, ifaces, n) else k;
            && k'.nextHandle == k.nextHandle
            && name in k'.sets && k'.sets[name].handle == k.sets[name].handle
            && (HasIface(k, name, i) ==> HasIface(k', name, i) && k'.sets[name].elems[i] == k.sets[name].elems[i])
            && (ok && i in Managed(ifaces) ==> HasIface(k', name, i) && i in k'.colourMap)
            && (ok && i in k'.colourMap ==> k'.colourMap[i] == ColourOf(n))
  {
  }

  lemma FlipKeepsRouter(cfg: Config, net: Net, net': Net, s: Side, ifaces: seq<string>, ok: bool)
    requires RouterInv(cfg, net, s) && Flip(cfg, net, net', s, ifaces, ok) && cfg.Valid()
    ensures RouterInv(cfg, net', s)
  {
    var r, r' := net.At(s), net'.At(s);
    EdgeNext(cfg, r.pc.n);
    hide Edge, AssertBlock, Managed;
    forall name: SetName
      ensures name in r'.kernel.sets && r'.kernel.sets[name].handle == r.kernel.sets[name].handle
      ensures r'.kernel.nextHandle == r.kernel.nextHandle
      ensures ok && cfg.Iface(s) in Managed(ifaces) ==>
                HasIface(r'.kernel, name, cfg.Iface(s)) && cfg.Iface(s) in r'.kernel.colourMap
      ensures ok && cfg.Iface(s) in r'.kernel.colourMap ==> r'.kernel.colourMap[cfg.Iface(s)] == ColourOf(r.pc.n + 1)
    {
      FlipFrame(r.kernel, ifaces, r.pc.n + 1, ok, name, cfg.Iface(s));
    }
    FlipFrame(r.kernel, ifaces, r.pc.n + 1, ok, SetName(Tx, A, Short), cfg.Iface(s));
    forall name | name in r'.last ensures BaselineOk(cfg, r', Clock(cfg, net', s), name) {
      assert BaselineOk(cfg, r, Clock(cfg, net, s), name);
    }
    forall n | n in r'.out ensures OutOk(cfg, r', Clock(cfg, net', s), n) {
      assert OutOk(cfg, r, Clock(cfg, net, s), n);
    }
  }

  lemma FlipKeepsPackets(cfg: Config, net: Net, net': Net, s: Side, ifaces: seq<string>, ok: bool)
    requires PacketInv(cfg, net) && Flip(cfg, net, net', s, ifaces, ok)
    ensures PacketInv(cfg, net')
  {
    hide Edge, AssertBlock, Managed;
    forall i | i in net'.pkts ensures PacketOk(cfg, net', i) {
      assert PacketOk(cfg, net, i);
    }
    forall i | i in net'.delivered && net'.delivered[i].window.Some? ensures WindowOk(cfg, net', i) {
      assert WindowOk(cfg, net, i);
    }
  }

  /** A flip changes no counter and no membership of a listed element. */
  lemma FlipKeepsAccounts(cfg: Config, net: Net, net': Net, s: Side, ifaces: seq<string>, ok: bool, c: Colour, b: Band)
    requires Flip(cfg, net, net', s, ifaces, ok) && Loaded(net.At(s).kernel)
    requires TxOk(cfg, net, s, c, b) && RxOk(cfg, net, s, c, b)
    requires TxOk(cfg, net, Other(s), c, b) && RxOk(cfg, net, Other(s), c, b)
    ensures TxOk(cfg, net', s, c, b) && RxOk(cfg, net', s, c, b)
    ensures TxOk(cfg, net', Other(s), c, b) && RxOk(cfg, net', Other(s), c, b)
  {
    hide Edge, AssertBlock, Managed, SentIn, DeliveredIn, StrayIn;
    var r := net.At(s);
    FlipFrame(r.kernel, ifaces, r.pc.n + 1, ok, SetName(Tx, c, b), cfg.Iface(s));
    FlipFrame(r.kernel, ifaces, r.pc.n + 1, ok, SetName(Rx, c, b), cfg.Iface(s));
  }

  lemma FlipKeepsCounts(cfg: Config, net: Net, net': Net, s: Side, ifaces: seq<string>, ok: bool)
    requires Flip(cfg, net, net', s, ifaces, ok) && Loaded(net.At(s).kernel)
    requires CountInv(cfg, net, s) && CountInv(cfg, net, Other(s))
    ensures CountInv(cfg, net', s) && CountInv(cfg, net', Other(s))
  {
    hide Edge, AssertBlock, Managed, SentIn, DeliveredIn, StrayIn, TxOk, RxOk, Loaded;
    var o := Other(s);
    forall c, b
      ensures TxOk(cfg, net', s, c, b) && RxOk(cfg, net', s, c, b)
      ensures TxOk(cfg, net', o, c, b) && RxOk(cfg, net', o, c, b)
    {
      FlipKeepsAccounts(cfg, net, net', s, ifaces, ok, c, b);
    }
    forall n, b
      ensures OutTx(net', s, n, b) && OutRx(net', s, n, b)
      ensures OutTx(net', o, n, b) && OutRx(net', o, n, b)
    {
      assert OutTx(net, s, n, b) && OutRx(net, s, n, b) && OutTx(net, o, n, b) && OutRx(net, o, n, b);
    }
  }

  lemma FlipKeepsInv(cfg: Config, net: Net, net': Net, s: Side, ifaces: seq<string>, ok: bool)
    requires cfg.Valid() && Inv(cfg, net) && Flip(cfg, net, net', s, ifaces, ok)
    ensures Inv(cfg, net')
  {
    FlipKeepsRouter(cfg, net, net', s, ifaces, ok);
    FlipKeepsPackets(cfg, net, net', s, ifaces, ok);
    FlipKeepsCounts(cfg, net, net', s, ifaces, ok);
    hide PacketInv, CountInv, Edge, AssertBlock, Managed;
    SameRouter(cfg, net, net', Other(s));
  }

  lemma ReloadKeepsInv(cfg: Config, net: Net, net': Net, s: Side)
    requires cfg.Valid() && Inv(cfg, net) && Reload(net, net', s)
    ensures Inv(cfg, net')
  {
    hide Edge, SentIn, DeliveredIn, StrayIn;
    ReloadKeepsRouter(cfg, net, net', s);
    assert RouterInv(cfg, net', Other(s)) by {
      hide PacketInv, CountInv;
      SameRouter(cfg, net, net', Other(s));
    }
    ReloadKeepsPackets(cfg, net, net', s);
    ReloadKeepsCounts(cfg, net, net', s);
  }

  lemma ReloadKeepsRouter(cfg: Config, net: Net, net': Net, s: Side)
    requires RouterInv(cfg, net, s) && Reload(net, net', s)
    ensures RouterInv(cfg, net', s)
    ensures forall name :: name in net.At(s).last ==> net.At(s).last[name].sets.handle < net.At(s).kernel.nextHandle
  {
    hide Edge;
    var r, r' := net.At(s), net'.At(s);
    forall name | name in r'.last ensures BaselineOk(cfg, r', Clock(cfg, net', s), name)
      ensures r.last[name].sets.handle < r.kernel.nextHandle
    {
      assert BaselineOk(cfg, r, Clock(cfg, net, s), name);
    }
    forall n | n in r'.out ensures OutOk(cfg, r', Clock(cfg, net', s), n) {
      assert OutOk(cfg, r, Clock(cfg, net, s), n);
    }
  }

  lemma ReloadKeepsPackets(cfg: Config, net: Net, net': Net, s: Side)
    requires PacketInv(cfg, net) && Reload(net, net', s)
    ensures PacketInv(cfg, net')
  {
    hide Edge, Rebuild;
    forall i | i in net'.pkts ensures PacketOk(cfg, net', i) {
      assert PacketOk(cfg, net, i);
    }
    forall i | i in net'.delivered && net'.delivered[i].window.Some? ensures WindowOk(cfg, net', i) {
      assert WindowOk(cfg, net, i);
    }
  }

  /** Fresh handles void every baseline of the rebuilt table. */
  lemma ReloadKeepsCounts(cfg: Config, net: Net, net': Net, s: Side)
    requires Reload(net, net', s)
    requires forall name :: name in net.At(s).last ==> net.At(s).last[name].sets.handle < net.At(s).kernel.nextHandle
    requires CountInv(cfg, net, s) && CountInv(cfg, net, Other(s))
    ensures CountInv(cfg, net', s) && CountInv(cfg, net', Other(s))
  {
    hide SentIn, DeliveredIn, StrayIn;
    var o := Other(s);
    forall c, b
      ensures TxOk(cfg, net', s, c, b) && RxOk(cfg, net', s, c, b)
      ensures TxOk(cfg, net', o, c, b) && RxOk(cfg, net', o, c, b)
    {
      assert TxOk(cfg, net, s, c, b) && RxOk(cfg, net, s, c, b);
      assert TxOk(cfg, net, o, c, b) && RxOk(cfg, net, o, c, b);
    }
    forall n, b
      ensures OutTx(net', s, n, b) && OutRx(net', s, n, b)
      ensures OutTx(net', o, n, b) && OutRx(net', o, n, b)
    {
      assert OutTx(net, s, n, b) && OutRx(net, s, n, b) && OutTx(net, o, n, b) && OutRx(net, o, n, b);
    }
  }

  // ── Reading ──────────────────────────────────────────────────────────────

  /** The step, with the block the loop computed replaced by its value. */
  ghost predicate DidRead(cfg: Config, net: Net, net': Net, s: Side, ok: bool, underTest: bool) {
    var r, r' := net.At(s), net'.At(s);
    && r.pc.Flipped? && r'.pc == Waiting(r.pc.n + 1)
    && Edge(cfg, r.pc.n) + cfg.Block() + cfg.half <= Clock(cfg, net, s)
    && (ok ==> Complete(r.kernel.sets, r.pc.n))
    && r'.last == (if ok then Advance(r.last, r.kernel.sets, r.pc.n) else r.last)
    && r'.out == (if ok then QueueBlock(cfg, r, s, r.pc.n, r.pc.ifaces, underTest) else r.out)
    && r'.kernel == r.kernel && r'.missed == r.missed && r'.clean == r.clean
    && net'.At(Other(s)) == net.At(Other(s))
    && net'.now == net.now && net'.pkts == net.pkts
    && net'.delivered == net.delivered && net'.dropped == net.dropped
  }

  lemma ReadIsDidRead(cfg: Config, net: Net, net': Net, s: Side, ok: bool, underTest: bool)
    requires cfg.Valid() && RouterInv(cfg, net, s) && Read(cfg, net, net', s, ok, underTest)
    ensures DidRead(cfg, net, net', s, ok, underTest)
  {
    BlockAfterRead(cfg, net.At(s).pc.n, Clock(cfg, net, s));
    hide Advance, QueueBlock, Edge;
  }

  lemma ReadKeepsRouter(cfg: Config, net: Net, net': Net, s: Side, ok: bool, underTest: bool)
    requires cfg.Valid() && RouterInv(cfg, net, s) && DidRead(cfg, net, net', s, ok, underTest)
    ensures RouterInv(cfg, net', s)
  {
    var r, r' := net.At(s), net'.At(s);
    var n, clock := r.pc.n, Clock(cfg, net, s);
    EdgeNext(cfg, n);
    hide Edge, Advance, BlockFor;
    forall name | name in r'.last ensures BaselineOk(cfg, r', clock, name) {
      if ok {
        AdvanceEntry(r.last, r.kernel.sets, n, name);
      }
      if name.colour != ColourOf(n) || !ok {
        assert BaselineOk(cfg, r, clock, name);
      }
    }
    forall m | m in r'.out ensures OutOk(cfg, r', clock, m) {
      ReadKeepsOutOk(cfg, net, net', s, ok, underTest, m);
    }
  }

  lemma ReadKeepsOutOk(cfg: Config, net: Net, net': Net, s: Side, ok: bool, underTest: bool, m: nat)
    requires cfg.Valid() && RouterInv(cfg, net, s) && DidRead(cfg, net, net', s, ok, underTest)
    requires m in net'.At(s).out
    ensures OutOk(cfg, net'.At(s), Clock(cfg, net, s), m)
  {
    hide Edge, Advance, BlockFor;
    var r, r' := net.At(s), net'.At(s);
    var n, clock := r.pc.n, Clock(cfg, net, s);
    if m in r.out {
      assert OutOk(cfg, r, clock, m);
    }
    forall name: SetName | name.colour == ColourOf(m) ensures name in r'.last && m <= r'.last[name].readFor {
      if ok {
        AdvanceEntry(r.last, r.kernel.sets, n, name);
      }
    }
  }

  /** Windows of arrivals at s do not reach past the block s reads next. */
  lemma WindowNotAhead(cfg: Config, net: Net, s: Side, id: nat)
    requires cfg.Valid() && PacketInv(cfg, net) && RouterInv(cfg, net, s)
    requires id in net.delivered
    ensures net.pkts[id].src == Other(s) && net.delivered[id].window.Some? ==>
              var w := net.delivered[id].window.value;
              ColourOf(w) == B && w < net.At(s).pc.n + 2
  {
    hide Edge, HasIface, OutOk;
    var name := SetName(Rx, B, BandOf(net.pkts[id].hdr.len));
    if net.pkts[id].src == Other(s) && net.delivered[id].window.Some? {
      assert WindowOk(cfg, net, id);
      assert BaselineOk(cfg, net.At(s), Clock(cfg, net, s), name);
    }
  }

  /** Router s has neither sent nor received anything of block n. */
  predicate NothingYet(net: Net, s: Side, n: nat, b: Band) {
    SentIn(net.pkts, s, n, b) == {} && ArrivedIn(net, Other(s), n, b) == 0
  }

  /** Nothing yet of the next block with the colour router s is about to read. */
  predicate NothingNext(net: Net, s: Side, b: Band) {
    net.At(s).pc.Flipped? && NothingYet(net, s, net.At(s).pc.n + 2, b)
  }

  /** Neither the packets of block n + 2 nor its windows exist when block n is read. */
  lemma NextBlockIsEmpty(cfg: Config, net: Net, s: Side, n: nat, b: Band)
    requires cfg.Valid() && PacketInv(cfg, net)
    requires RouterInv(cfg, net, s) && net.At(s).pc.Flipped? && net.At(s).pc.n == n
    ensures NothingYet(net, s, n + 2, b)
  {
    EdgeNext(cfg, n);
    EdgeNext(cfg, n + 1);
    hide Edge, HasIface, OutOk;
    var o := Other(s);
    forall id | id in net.pkts ensures !InBlock(net.pkts[id], s, n + 2, b) && !InBlock(net.pkts[id], o, n + 2, b) {
      assert PacketOk(cfg, net, id);
    }
    forall id | id in net.delivered ensures !Stray(net.pkts[id], net.delivered[id], o, n + 2, b) {
      WindowNotAhead(cfg, net, s, id);
    }
    assert SentIn(net.pkts, s, n + 2, b) == {};
    assert DeliveredIn(net.pkts, net.delivered, o, n + 2, b) == {};
    assert StrayIn(net.pkts, net.delivered, o, n + 2, b) == {};
  }

  lemma ReadKeepsPackets(cfg: Config, net: Net, net': Net, s: Side, ok: bool, underTest: bool)
    requires cfg.Valid() && RouterInv(cfg, net, s) && PacketInv(cfg, net) && DidRead(cfg, net, net', s, ok, underTest)
    ensures PacketInv(cfg, net')
  {
    hide Edge, Advance, BlockFor, HasIface, OutOk;
    forall i | i in net'.pkts ensures PacketOk(cfg, net', i) {
      assert PacketOk(cfg, net, i);
    }
    forall i | i in net'.delivered && net'.delivered[i].window.Some? ensures WindowOk(cfg, net', i) {
      assert WindowOk(cfg, net, i);
      ReadKeepsWindow(cfg, net, net', s, ok, underTest, i);
    }
  }

  lemma ReadKeepsWindow(cfg: Config, net: Net, net': Net, s: Side, ok: bool, underTest: bool, id: nat)
    requires cfg.Valid() && RouterInv(cfg, net, s) && DidRead(cfg, net, net', s, ok, underTest)
    requires id in net.delivered && id in net.pkts && net.delivered[id].window.Some? && WindowOk(cfg, net, id)
    ensures WindowOk(cfg, net', id)
  {
    hide Edge, Advance, BlockFor, HasIface, OutOk;
    var r := net.At(s);
    var name := SetName(Rx, B, BandOf(net.pkts[id].hdr.len));
    if ok {
      AdvanceEntry(r.last, r.kernel.sets, r.pc.n, name);
    }
    if name in r.last {
      assert BaselineOk(cfg, r, Clock(cfg, net, s), name);
    }
  }

  /** Across a read, a new baseline starts its block at zero and an old one keeps
      counting; `gain` is what each block has gained so far. */
  lemma GainedAcrossRead(r: Router, r': Router, name: SetName, iface: string, ok: bool, flips: nat -> bool,
                         gain: nat -> nat)
    requires r.pc.Flipped? && r'.pc == Waiting(r.pc.n + 1) && r'.kernel == r.kernel
    requires ok ==> Complete(r.kernel.sets, r.pc.n) && r'.last == Advance(r.last, r.kernel.sets, r.pc.n)
    requires !ok ==> r'.last == r.last
    requires gain(r.pc.n + 2) == 0
    requires Stable(r, name, iface) ==>
               Gained(r, name, iface, flips(r.last[name].readFor + 2) && r.pc.n <= r.last[name].readFor + 2,
                      gain(r.last[name].readFor + 2))
    ensures Stable(r', name, iface) ==>
              Gained(r', name, iface, flips(r'.last[name].readFor + 2) && r'.pc.n <= r'.last[name].readFor + 2,
                     gain(r'.last[name].readFor + 2))
  {
  }

  lemma ReadKeepsTx(cfg: Config, net: Net, net': Net, s: Side, ok: bool, underTest: bool, c: Colour, b: Band)
    requires DidRead(cfg, net, net', s, ok, underTest)
    requires NothingYet(net, s, net.At(s).pc.n + 2, b)
    requires TxOk(cfg, net, s, c, b)
    ensures TxOk(cfg, net', s, c, b)
  {
    hide Edge, Advance, QueueBlock, SentIn, Gained, Stable, Complete;
    var r, r' := net.At(s), net'.At(s);
    var gain, flips := (n: nat) => |SentIn(net.pkts, s, n, b)|, (n: nat) => FlipsAround(r, n);
    GainedAcrossRead(r, r', SetName(Tx, c, b), cfg.Iface(s), ok, flips, gain);
  }

  lemma ReadKeepsRx(cfg: Config, net: Net, net': Net, s: Side, ok: bool, underTest: bool, c: Colour, b: Band)
    requires DidRead(cfg, net, net', s, ok, underTest)
    requires NothingYet(net, s, net.At(s).pc.n + 2, b)
    requires RxOk(cfg, net, Other(s), c, b)
    ensures RxOk(cfg, net', Other(s), c, b)
  {
    hide Edge, Advance, QueueBlock, ArrivedIn, Gained, Complete;
    var r, r' := net.At(s), net'.At(s);
    var o := Other(s);
    SameArrivals(net, net', o, b);
    var gain, flips := (n: nat) => ArrivedIn(net, o, n, b), (n: nat) => FlipsAround(net.At(o), n);
    assert Other(o) == s;
    var name := SetName(Rx, c, b);
    GainedAcrossRead(r, r', name, cfg.Iface(s), ok, flips, gain);
    if Stable(r', name, cfg.Iface(s)) {
      assert gain(r'.last[name].readFor + 2) == ArrivedIn(net', o, r'.last[name].readFor + 2, b);
    }
  }

  lemma SameArrivals(net: Net, net': Net, s: Side, b: Band)
    requires net'.pkts == net.pkts && net'.delivered == net.delivered
    ensures forall n :: ArrivedIn(net', s, n, b) == ArrivedIn(net, s, n, b)
  {
  }

  lemma ReadLeavesOther(cfg: Config, net: Net, net': Net, s: Side, ok: bool, underTest: bool, c: Colour, b: Band)
    requires cfg.Valid() && DidRead(cfg, net, net', s, ok, underTest)
    requires TxOk(cfg, net, Other(s), c, b) && RxOk(cfg, net, s, c, b)
    ensures TxOk(cfg, net', Other(s), c, b) && RxOk(cfg, net', s, c, b)
  {
  }

  /** A non-reset block was read over stable sets. */
  lemma BlockNeedsStableSets(r: Router, iface: string, n: nat, secs: nat, underTest: bool, dir: Dir, b: Band)
    requires Complete(r.kernel.sets, n)
    requires BlockFor(r.last, r.kernel.sets, iface, n, secs, underTest).Some?
    requires !BlockFor(r.last, r.kernel.sets, iface, n, secs, underTest).value.reset
    ensures var name := NameOf(n, dir, b);
            && Stable(r, name, iface)
            && r.last[name].readFor + 2 == n
            && HasIface(r.kernel, name, iface)
            && r.last[name].sets.elems[iface].pkts <= r.kernel.sets[name].elems[iface].pkts
            && PktsOf(BlockFor(r.last, r.kernel.sets, iface, n, secs, underTest).value, dir, b)
               == r.kernel.sets[name].elems[iface].pkts - r.last[name].sets.elems[iface].pkts
  {
  }

  /** What the router's own read queues: exact in both directions when it is a block. */
  lemma ReadKeepsOwnOut(cfg: Config, net: Net, net': Net, s: Side, ok: bool, underTest: bool, n: nat, b: Band)
    requires cfg.Valid() && DidRead(cfg, net, net', s, ok, underTest)
    requires TxOk(cfg, net, s, ColourOf(n), b) && RxOk(cfg, net, Other(s), ColourOf(n), b)
    requires OutTx(net, s, n, b) && OutRx(net, Other(s), n, b)
    ensures OutTx(net', s, n, b) && OutRx(net', Other(s), n, b)
  {
    hide Edge, Advance, BlockFor, SentIn, DeliveredIn, StrayIn;
    var r, r' := net.At(s), net'.At(s);
    if ok && n == r.pc.n && n in r'.out && !r'.out[n].reset {
      var q := BlockFor(r.last, r.kernel.sets, cfg.Iface(s), n, cfg.secs, underTest);
      if cfg.Iface(s) in r.pc.ifaces && q.Some? {
        BlockNeedsStableSets(r, cfg.Iface(s), n, cfg.secs, underTest, Tx, b);
        BlockNeedsStableSets(r, cfg.Iface(s), n, cfg.secs, underTest, Rx, b);
      }
    }
  }

  lemma ReadLeavesPeerOut(cfg: Config, net: Net, net': Net, s: Side, ok: bool, underTest: bool, n: nat, b: Band)
    requires DidRead(cfg, net, net', s, ok, underTest)
    requires OutTx(net, Other(s), n, b) && OutRx(net, s, n, b)
    ensures OutTx(net', Other(s), n, b) && OutRx(net', s, n, b)
  {
    hide Edge, Advance, QueueBlock, SentIn, DeliveredIn, StrayIn;
  }

  lemma ReadKeepsCounts(cfg: Config, net: Net, net': Net, s: Side, ok: bool, underTest: bool)
    requires cfg.Valid() && DidRead(cfg, net, net', s, ok, underTest)
    requires CountInv(cfg, net, s) && CountInv(cfg, net, Other(s))
    requires forall b :: NothingNext(net, s, b)
    ensures CountInv(cfg, net', s) && CountInv(cfg, net', Other(s))
  {
    hide Edge, Advance, QueueBlock, Gained, Stable, SentIn, ArrivedIn, DidRead, TxOk, RxOk, OutTx, OutRx;
    var o := Other(s);
    forall c, b
      ensures TxOk(cfg, net', s, c, b) && RxOk(cfg, net', s, c, b)
      ensures TxOk(cfg, net', o, c, b) && RxOk(cfg, net', o, c, b)
    {
      assert NothingNext(net, s, b);
      ReadKeepsTx(cfg, net, net', s, ok, underTest, c, b);
      ReadKeepsRx(cfg, net, net', s, ok, underTest, c, b);
      ReadLeavesOther(cfg, net, net', s, ok, underTest, c, b);
    }
    forall n, b
      ensures OutTx(net', s, n, b) && OutRx(net', s, n, b)
      ensures OutTx(net', o, n, b) && OutRx(net', o, n, b)
    {
      ReadKeepsOwnOut(cfg, net, net', s, ok, underTest, n, b);
      ReadLeavesPeerOut(cfg, net, net', s, ok, underTest, n, b);
    }
  }

  lemma ReadKeepsInv(cfg: Config, net: Net, net': Net, s: Side, ok: bool, underTest: bool)
    requires cfg.Valid() && Inv(cfg, net) && Read(cfg, net, net', s, ok, underTest)
    ensures Inv(cfg, net')
  {
    hide RouterInv, PacketInv, CountInv, SentIn, ArrivedIn, Advance, QueueBlock;
    assert net.At(s).pc.Flipped?;
    ReadIsDidRead(cfg, net, net', s, ok, underTest);
    hide Read;
    ReadKeepsRouter(cfg, net, net', s, ok, underTest);
    ReadKeepsPackets(cfg, net, net', s, ok, underTest);
    forall b ensures NothingNext(net, s, b) {
      NextBlockIsEmpty(cfg, net, s, net.At(s).pc.n, b);
    }
    ReadKeepsCounts(cfg, net, net', s, ok, underTest);
    ReadLeavesRouter(cfg, net, net', s, ok, underTest);
  }

  lemma ReadLeavesRouter(cfg: Config, net: Net, net': Net, s: Side, ok: bool, underTest: bool)
    requires DidRead(cfg, net, net', s, ok, underTest) && RouterInv(cfg, net, Other(s))
    ensures RouterInv(cfg, net', Other(s))
  {
    hide RouterInv, Advance, QueueBlock, Edge;
    SameRouter(cfg, net, net', Other(s));
  }

  // ── Every run ────────────────────────────────────────────────────────────

  lemma NextKeepsInv(cfg: Config, net: Net, net': Net)
    requires cfg.Valid() && Inv(cfg, net) && Next(cfg, net, net')
    ensures Inv(cfg, net')
  {
    hide Inv, Send, Deliver, Drop, Flip, Read, Reload, Wait;
    if Wait(cfg, net, net') {
      WaitKeepsInv(cfg, net, net');
    } else if s, id, h :| Send(cfg, net, net', s, id, h) {
      SendKeepsInv(cfg, net, net', s, id, h);
    } else if id :| Deliver(cfg, net, net', id) {
      DeliverKeepsInv(cfg, net, net', id);
    } else if id :| Drop(net, net', id) {
      DropKeepsInv(cfg, net, net', id);
    } else if s, ifaces, ok :| Flip(cfg, net, net', s, ifaces, ok) {
      FlipKeepsInv(cfg, net, net', s, ifaces, ok);
    } else if s, ok, underTest :| Read(cfg, net, net', s, ok, underTest) {
      ReadKeepsInv(cfg, net, net', s, ok, underTest);
    } else {
      var s :| Reload(net, net', s);
      ReloadKeepsInv(cfg, net, net', s);
    }
  }

  lemma {:induction false} RunKeepsInv(cfg: Config, run: seq<Net>, i: nat)
    requires cfg.Valid() && IsRun(cfg, run) && i < |run|
    ensures Inv(cfg, run[i])
  {
    hide Inv, Init, Next;
    if i == 0 {
      InitHolds(cfg, run[0]);
    } else {
      RunKeepsInv(cfg, run, i - 1);
      assert Next(cfg, run[i - 1], run[i - 1 + 1]);
      NextKeepsInv(cfg, run[i - 1], run[i]);
    }
  }
}
