/** The bytes of a block: in every run the bytes the sender reports for a block are
    those of the block's packets (crates/agent/src/mark.rs, `read`). */
module MarkingBytes {
  import opened AgentMark
  import opened NftChains
  import opened AlternateMarking
  import opened MarkingProof

  // ── Sums over packets ────────────────────────────────────────────────────

  predicate IsLowest(ids: set<nat>, id: nat) { id in ids && forall i :: i in ids ==> id <= i }

  function Lowest(ids: set<nat>): (id: nat)
    requires ids != {}
    ensures IsLowest(ids, id)
  {
    LowestExists(ids);
    var id :| IsLowest(ids, id);
    id
  }

  lemma {:induction false} LowestExists(ids: set<nat>)
    requires ids != {}
    ensures exists id: nat :: IsLowest(ids, id)
    decreases |ids|
  {
    var x :| x in ids;
    var rest := ids - {x};
    if rest == {} {
      assert ids == {x};
      assert IsLowest(ids, x);
    } else {
      LowestExists(rest);
      var low: nat :| IsLowest(rest, low);
      LowerOf(ids, x, low);
    }
  }

  lemma LowerOf(ids: set<nat>, x: nat, low: nat)
    requires x in ids && IsLowest(ids - {x}, low)
    ensures IsLowest(ids, if x <= low then x else low)
  {
    forall i | i in ids ensures (if x <= low then x else low) <= i {
      assert i == x || i in ids - {x};
    }
  }

  /** The lengths of some packets, added up. */
  function LengthOf(pkts: map<nat, Packet>, ids: set<nat>): nat
    requires ids <= pkts.Keys
    decreases |ids|
  {
    if ids == {} then 0
    else
      var id := Lowest(ids);
      pkts[id].hdr.len + LengthOf(pkts, ids - {id})
  }

  lemma {:induction false} LengthWithout(pkts: map<nat, Packet>, ids: set<nat>, id: nat)
    requires ids <= pkts.Keys && id in ids
    ensures LengthOf(pkts, ids) == pkts[id].hdr.len + LengthOf(pkts, ids - {id})
    decreases |ids|
  {
    var low := Lowest(ids);
    if low != id {
      LengthWithout(pkts, ids - {low}, id);
      assert ids - {low} - {id} == ids - {id} - {low};
      assert Lowest(ids - {id}) == low;
    }
  }

  lemma {:induction false} SamePackets(pkts: map<nat, Packet>, pkts': map<nat, Packet>, ids: set<nat>)
    requires ids <= pkts.Keys && ids <= pkts'.Keys && forall i :: i in ids ==> pkts'[i] == pkts[i]
    ensures LengthOf(pkts', ids) == LengthOf(pkts, ids)
    decreases |ids|
  {
    if ids != {} {
      SamePackets(pkts, pkts', ids - {Lowest(ids)});
    }
  }

  /** The bytes of block n's packets of one band. */
  function BytesIn(pkts: map<nat, Packet>, s: Side, n: nat, b: Band): nat { LengthOf(pkts, SentIn(pkts, s, n, b)) }

  lemma BytesAdd(pkts: map<nat, Packet>, id: nat, p: Packet, s: Side, n: nat, b: Band)
    requires id !in pkts
    ensures BytesIn(pkts[id := p], s, n, b) == BytesIn(pkts, s, n, b) + if InBlock(p, s, n, b) then p.hdr.len else 0
  {
    hide InBlock;
    var before, after := SentIn(pkts, s, n, b), SentIn(pkts[id := p], s, n, b);
    SamePackets(pkts, pkts[id := p], before);
    if InBlock(p, s, n, b) {
      assert after == before + {id};
      LengthWithout(pkts[id := p], after, id);
      assert after - {id} == before;
    } else {
      assert after == before;
    }
  }

  // ── The invariant ────────────────────────────────────────────────────────

  /** Since its baseline the element gained `gain` bytes. */
  ghost predicate BytesGained(r: Router, name: SetName, iface: string, open: bool, gain: nat)
    requires Stable(r, name, iface)
  {
    && HasIface(r.kernel, name, iface)
    && (open ==> r.kernel.sets[name].elems[iface].bytes == r.last[name].sets.elems[iface].bytes + gain)
  }

  ghost predicate TxBytesOk(cfg: Config, net: Net, s: Side, c: Colour, b: Band) {
    var r, name := net.At(s), SetName(Tx, c, b);
    Stable(r, name, cfg.Iface(s)) ==>
      var n := r.last[name].readFor + 2;
      BytesGained(r, name, cfg.Iface(s), FlipsAround(r, n) && r.pc.n <= n, BytesIn(net.pkts, s, n, b))
  }

  ghost predicate OutBytes(net: Net, s: Side, n: nat) {
    n in net.At(s).out && !net.At(s).out[n].reset && FlipsAround(net.At(s), n) ==>
      net.At(s).out[n].txBytes == BytesIn(net.pkts, s, n, Short) + BytesIn(net.pkts, s, n, Long)
  }

  ghost predicate ByteInv(cfg: Config, net: Net, s: Side) {
    (forall c, b :: TxBytesOk(cfg, net, s, c, b)) && (forall n :: OutBytes(net, s, n))
  }

  lemma SameBytes(cfg: Config, net: Net, net': Net, s: Side)
    requires ByteInv(cfg, net, s) && net'.At(s) == net.At(s) && net'.pkts == net.pkts
    ensures ByteInv(cfg, net', s)
  {
    forall c, b ensures TxBytesOk(cfg, net', s, c, b) {
      assert TxBytesOk(cfg, net, s, c, b);
    }
    forall n ensures OutBytes(net', s, n) {
      assert OutBytes(net, s, n);
    }
  }

  // ── Sending ──────────────────────────────────────────────────────────────

  lemma BytesAcrossTick(r: Router, r': Router, ticked: SetName, name: SetName, iface: string, len: nat,
                        open: bool, gain: nat, gain': nat)
    requires HasIface(r.kernel, ticked, iface) && r' == r.(kernel := Tick(r.kernel, ticked, iface, len))
    requires Stable(r, name, iface) ==> BytesGained(r, name, iface, open, gain)
    requires Stable(r, name, iface) && open ==> gain' == gain + if name == ticked then len else 0
    ensures Stable(r', name, iface) ==> BytesGained(r', name, iface, open, gain')
  {
    StableAcrossTick(r, r', ticked, name, iface, len);
    if Stable(r, name, iface) {
      TickFrame(r.kernel, ticked, iface, len, name, iface);
    }
    hide Tick;
  }

  lemma SendKeepsTxBytes(cfg: Config, net: Net, net': Net, s: Side, id: nat, h: Hdr, c: Colour, b: Band)
    requires RouterInv(cfg, net, s) && TxBytesOk(cfg, net, s, c, b) && Sent(cfg, net, net', s, id, h)
    ensures TxBytesOk(cfg, net', s, c, b)
  {
    hide Sent, BytesGained, Tick, BytesIn, RouterInv;
    SendMarks(cfg, net, net', s, id, h);
    var r, r' := net.At(s), net'.At(s);
    var name, iface := SetName(Tx, c, b), cfg.Iface(s);
    if name in r.last {
      BaselineTime(cfg, net, s, c, name);
      var m := r.last[name].readFor;
      var n, open := m + 2, FlipsAround(r, m + 2) && r.pc.n <= m + 2;
      BytesAdd(net.pkts, id, net'.pkts[id], s, n, b);
      if Marks(r.kernel, iface, h) {
        if open {
          SendTicksItsBlock(r, c, m, iface);
        }
        BytesAcrossTick(r, r', SetName(Tx, r.kernel.colourMap[iface], BandOf(h.len)), name, iface, h.len, open,
                        BytesIn(net.pkts, s, n, b), BytesIn(net'.pkts, s, n, b));
      }
    }
  }

  lemma SendKeepsOutBytes(cfg: Config, net: Net, net': Net, s: Side, id: nat, h: Hdr, d: Side, n: nat)
    requires RouterInv(cfg, net, s) && Sent(cfg, net, net', s, id, h) && OutBytes(net, d, n)
    ensures OutBytes(net', d, n)
  {
    hide Sent, Tick, BytesIn;
    SendMarks(cfg, net, net', s, id, h);
    SendLeavesPeer(cfg, net, net', s, id, h);
    BytesAdd(net.pkts, id, net'.pkts[id], d, n, Short);
    BytesAdd(net.pkts, id, net'.pkts[id], d, n, Long);
    if n in net.At(s).out {
      assert OutOk(cfg, net.At(s), Clock(cfg, net, s), n);
    }
  }

  lemma SendLeavesPeer(cfg: Config, net: Net, net': Net, s: Side, id: nat, h: Hdr)
    requires Sent(cfg, net, net', s, id, h)
    ensures net'.At(Other(s)) == net.At(Other(s))
  {
  }

  lemma SendLeavesTxBytes(cfg: Config, net: Net, net': Net, s: Side, id: nat, h: Hdr, c: Colour, b: Band)
    requires Sent(cfg, net, net', s, id, h) && TxBytesOk(cfg, net, Other(s), c, b)
    ensures TxBytesOk(cfg, net', Other(s), c, b)
  {
    hide Sent, BytesGained, Tick, BytesIn;
    SendMarks(cfg, net, net', s, id, h);
    SendLeavesPeer(cfg, net, net', s, id, h);
    var q, name := net.At(Other(s)), SetName(Tx, c, b);
    if name in q.last {
      BytesAdd(net.pkts, id, net'.pkts[id], Other(s), q.last[name].readFor + 2, b);
    }
  }

  lemma SendKeepsBytes(cfg: Config, net: Net, net': Net, s: Side, id: nat, h: Hdr)
    requires cfg.Valid() && RouterInv(cfg, net, s) && Send(cfg, net, net', s, id, h)
    requires ByteInv(cfg, net, s) && ByteInv(cfg, net, Other(s))
    ensures ByteInv(cfg, net', s) && ByteInv(cfg, net', Other(s))
  {
    hide RouterInv, TxBytesOk, OutBytes, Send, Sent;
    SendIsSent(cfg, net, net', s, id, h);
    forall c, b ensures TxBytesOk(cfg, net', s, c, b) && TxBytesOk(cfg, net', Other(s), c, b) {
      SendKeepsTxBytes(cfg, net, net', s, id, h, c, b);
      SendLeavesTxBytes(cfg, net, net', s, id, h, c, b);
    }
    forall n ensures OutBytes(net', s, n) && OutBytes(net', Other(s), n) {
      SendKeepsOutBytes(cfg, net, net', s, id, h, s, n);
      SendKeepsOutBytes(cfg, net, net', s, id, h, Other(s), n);
    }
  }

  // ── Arrivals, flips and reloads ──────────────────────────────────────────

  /** An arrival ticks no tx element. */
  lemma ArriveLeavesTxBytes(cfg: Config, net: Net, net': Net, id: nat, c: Colour, b: Band)
    requires Arrived(cfg, net, net', id) && TxBytesOk(cfg, net, Other(net.pkts[id].src), c, b)
    ensures TxBytesOk(cfg, net', Other(net.pkts[id].src), c, b)
  {
    hide Tick, BytesIn, BytesGained;
    var p := net.pkts[id];
    var o := Other(p.src);
    var r, r', name := net.At(o), net'.At(o), SetName(Tx, c, b);
    var ticked := SetName(Rx, if p.hdr.bit then A else B, BandOf(p.hdr.len));
    if HasIface(r.kernel, ticked, cfg.Iface(o)) && name in r.last {
      var n := r.last[name].readFor + 2;
      BytesAcrossTick(r, r', ticked, name, cfg.Iface(o), p.hdr.len, FlipsAround(r, n) && r.pc.n <= n,
                      BytesIn(net.pkts, o, n, b), BytesIn(net'.pkts, o, n, b));
    }
  }

  lemma DeliverKeepsBytes(cfg: Config, net: Net, net': Net, id: nat)
    requires Deliver(cfg, net, net', id)
    requires ByteInv(cfg, net, Left) && ByteInv(cfg, net, Right)
    ensures ByteInv(cfg, net', Left) && ByteInv(cfg, net', Right)
  {
    hide TxBytesOk, OutBytes, Deliver, ArriveEffect;
    DeliverIsArrived(cfg, net, net', id);
    var s, o := net.pkts[id].src, Other(net.pkts[id].src);
    assert ByteInv(cfg, net, s) && ByteInv(cfg, net, o);
    assert ByteInv(cfg, net', s) by { SameBytes(cfg, net, net', s); }
    forall c, b ensures TxBytesOk(cfg, net', o, c, b) {
      ArriveLeavesTxBytes(cfg, net, net', id, c, b);
    }
    forall n ensures OutBytes(net', o, n) {
      SameOut(net, net', o, n);
    }
  }

  lemma SameOut(net: Net, net': Net, s: Side, n: nat)
    requires OutBytes(net, s, n) && net'.pkts == net.pkts
    requires net'.At(s).out == net.At(s).out && net.At(s).missed <= net'.At(s).missed
    ensures OutBytes(net', s, n)
  {
  }

  lemma FlipKeepsTxBytes(cfg: Config, net: Net, net': Net, s: Side, ifaces: seq<string>, ok: bool, c: Colour, b: Band)
    requires Flip(cfg, net, net', s, ifaces, ok) && Loaded(net.At(s).kernel) && TxBytesOk(cfg, net, s, c, b)
    ensures TxBytesOk(cfg, net', s, c, b)
  {
    hide Edge, AssertBlock, Managed, BytesIn;
    var r := net.At(s);
    FlipFrame(r.kernel, ifaces, r.pc.n + 1, ok, SetName(Tx, c, b), cfg.Iface(s));
  }

  lemma FlipKeepsBytes(cfg: Config, net: Net, net': Net, s: Side, ifaces: seq<string>, ok: bool)
    requires Flip(cfg, net, net', s, ifaces, ok) && Loaded(net.At(s).kernel)
    requires ByteInv(cfg, net, s) && ByteInv(cfg, net, Other(s))
    ensures ByteInv(cfg, net', s) && ByteInv(cfg, net', Other(s))
  {
    hide Edge, AssertBlock, Managed, TxBytesOk, OutBytes, Loaded;
    SameBytes(cfg, net, net', Other(s));
    forall c, b ensures TxBytesOk(cfg, net', s, c, b) {
      FlipKeepsTxBytes(cfg, net, net', s, ifaces, ok, c, b);
    }
    forall n ensures OutBytes(net', s, n) {
      SameOut(net, net', s, n);
    }
  }

  /** Fresh handles void every baseline of the rebuilt table. */
  lemma ReloadKeepsBytes(cfg: Config, net: Net, net': Net, s: Side)
    requires RouterInv(cfg, net, s) && Reload(net, net', s)
    requires ByteInv(cfg, net, s) && ByteInv(cfg, net, Other(s))
    ensures ByteInv(cfg, net', s) && ByteInv(cfg, net', Other(s))
  {
    hide TxBytesOk, OutBytes;
    SameBytes(cfg, net, net', Other(s));
    ReloadKeepsRouter(cfg, net, net', s);
    hide RouterInv;
    forall c, b ensures TxBytesOk(cfg, net', s, c, b) {
      ReloadVoids(cfg, net, net', s, c, b);
    }
    forall n ensures OutBytes(net', s, n) {
      SameOut(net, net', s, n);
    }
  }

  lemma ReloadVoids(cfg: Config, net: Net, net': Net, s: Side, c: Colour, b: Band)
    requires Reload(net, net', s)
    requires forall name :: name in net.At(s).last ==> net.At(s).last[name].sets.handle < net.At(s).kernel.nextHandle
    ensures TxBytesOk(cfg, net', s, c, b)
  {
  }

  // ── Reading ──────────────────────────────────────────────────────────────

  lemma BytesAcrossRead(r: Router, r': Router, name: SetName, iface: string, ok: bool, flips: nat -> bool,
                        gain: nat -> nat)
    requires r.pc.Flipped? && r'.pc == Waiting(r.pc.n + 1) && r'.kernel == r.kernel
    requires ok ==> Complete(r.kernel.sets, r.pc.n) && r'.last == Advance(r.last, r.kernel.sets, r.pc.n)
    requires !ok ==> r'.last == r.last
    requires gain(r.pc.n + 2) == 0
    requires Stable(r, name, iface) ==>
               BytesGained(r, name, iface, flips(r.last[name].readFor + 2) && r.pc.n <= r.last[name].readFor + 2,
                           gain(r.last[name].readFor + 2))
    ensures Stable(r', name, iface) ==>
              BytesGained(r', name, iface, flips(r'.last[name].readFor + 2) && r'.pc.n <= r'.last[name].readFor + 2,
                          gain(r'.last[name].readFor + 2))
  {
  }

  lemma ReadKeepsTxBytes(cfg: Config, net: Net, net': Net, s: Side, ok: bool, underTest: bool, c: Colour, b: Band)
    requires DidRead(cfg, net, net', s, ok, underTest)
    requires NothingNext(net, s, b) && TxBytesOk(cfg, net, s, c, b)
    ensures TxBytesOk(cfg, net', s, c, b)
  {
    hide Edge, Advance, QueueBlock, SentIn, BytesGained, Stable, Complete, LengthOf;
    var r, r' := net.At(s), net'.At(s);
    assert BytesIn(net.pkts, s, r.pc.n + 2, b) == 0 by { NoBytes(net.pkts); }
    hide BytesIn;
    var gain, flips := (n: nat) => BytesIn(net.pkts, s, n, b), (n: nat) => FlipsAround(r, n);
    BytesAcrossRead(r, r', SetName(Tx, c, b), cfg.Iface(s), ok, flips, gain);
  }

  lemma NoBytes(pkts: map<nat, Packet>)
    ensures LengthOf(pkts, {}) == 0
  {
  }

  /** The bytes of a non-reset block are the differences of its two tx sets. */
  lemma BlockBytes(r: Router, iface: string, n: nat, secs: nat, underTest: bool)
    requires Complete(r.kernel.sets, n)
    requires BlockFor(r.last, r.kernel.sets, iface, n, secs, underTest).Some?
    requires !BlockFor(r.last, r.kernel.sets, iface, n, secs, underTest).value.reset
    ensures var (short, long) := (NameOf(n, Tx, Short), NameOf(n, Tx, Long));
            && Stable(r, short, iface) && Stable(r, long, iface)
            && r.last[short].readFor + 2 == n && r.last[long].readFor + 2 == n
            && HasIface(r.kernel, short, iface) && HasIface(r.kernel, long, iface)
            && BlockFor(r.last, r.kernel.sets, iface, n, secs, underTest).value.txBytes
               == r.kernel.sets[short].elems[iface].bytes - r.last[short].sets.elems[iface].bytes
                  + r.kernel.sets[long].elems[iface].bytes - r.last[long].sets.elems[iface].bytes
  {
  }

  lemma ReadKeepsOutBytes(cfg: Config, net: Net, net': Net, s: Side, ok: bool, underTest: bool, n: nat)
    requires DidRead(cfg, net, net', s, ok, underTest) && OutBytes(net, s, n)
    requires TxBytesOk(cfg, net, s, ColourOf(n), Short) && TxBytesOk(cfg, net, s, ColourOf(n), Long)
    ensures OutBytes(net', s, n)
  {
    hide Edge, Advance, BlockFor, BytesIn;
    var r, r' := net.At(s), net'.At(s);
    if ok && n == r.pc.n && n in r'.out && !r'.out[n].reset {
      var q := BlockFor(r.last, r.kernel.sets, cfg.Iface(s), n, cfg.secs, underTest);
      if cfg.Iface(s) in r.pc.ifaces && q.Some? {
        BlockBytes(r, cfg.Iface(s), n, cfg.secs, underTest);
      }
    }
  }

  lemma ReadKeepsBytes(cfg: Config, net: Net, net': Net, s: Side, ok: bool, underTest: bool)
    requires cfg.Valid() && RouterInv(cfg, net, s) && PacketInv(cfg, net) && Read(cfg, net, net', s, ok, underTest)
    requires ByteInv(cfg, net, s) && ByteInv(cfg, net, Other(s))
    ensures ByteInv(cfg, net', s) && ByteInv(cfg, net', Other(s))
  {
    hide RouterInv, PacketInv, TxBytesOk, OutBytes, Advance, QueueBlock, SentIn, ArrivedIn;
    assert net.At(s).pc.Flipped?;
    ReadIsDidRead(cfg, net, net', s, ok, underTest);
    hide Read;
    SameBytes(cfg, net, net', Other(s));
    forall c, b ensures TxBytesOk(cfg, net', s, c, b) {
      NextBlockIsEmpty(cfg, net, s, net.At(s).pc.n, b);
      ReadKeepsTxBytes(cfg, net, net', s, ok, underTest, c, b);
    }
    forall n ensures OutBytes(net', s, n) {
      ReadKeepsOutBytes(cfg, net, net', s, ok, underTest, n);
    }
  }

  // ── Every run ────────────────────────────────────────────────────────────

  ghost predicate BothBytes(cfg: Config, net: Net) { ByteInv(cfg, net, Left) && ByteInv(cfg, net, Right) }

  lemma StartBytes(cfg: Config, net: Net)
    requires Init(cfg, net)
    ensures BothBytes(cfg, net)
  {
  }

  lemma RouterParts(cfg: Config, net: Net, s: Side)
    requires Inv(cfg, net)
    ensures RouterInv(cfg, net, s) && Loaded(net.At(s).kernel) && PacketInv(cfg, net)
  {
  }

  /** Every step keeps the bytes accounted for. */
  lemma NextKeepsBytes(cfg: Config, net: Net, net': Net)
    requires cfg.Valid() && Inv(cfg, net) && BothBytes(cfg, net) && Next(cfg, net, net')
    ensures BothBytes(cfg, net')
  {
    hide Inv, RouterInv, PacketInv, Loaded, ByteInv, Send, Deliver, Flip, Read, Reload;
    if Wait(cfg, net, net') || exists id :: Drop(net, net', id) {
      SameBytes(cfg, net, net', Left);
      SameBytes(cfg, net, net', Right);
    } else if s, id, h :| Send(cfg, net, net', s, id, h) {
      RouterParts(cfg, net, s);
      SendKeepsBytes(cfg, net, net', s, id, h);
    } else if id :| Deliver(cfg, net, net', id) {
      DeliverKeepsBytes(cfg, net, net', id);
    } else if s, ifaces, ok :| Flip(cfg, net, net', s, ifaces, ok) {
      RouterParts(cfg, net, s);
      FlipKeepsBytes(cfg, net, net', s, ifaces, ok);
    } else if s, ok, underTest :| Read(cfg, net, net', s, ok, underTest) {
      RouterParts(cfg, net, s);
      ReadKeepsBytes(cfg, net, net', s, ok, underTest);
    } else {
      var s :| Reload(net, net', s);
      RouterParts(cfg, net, s);
      ReloadKeepsBytes(cfg, net, net', s);
    }
  }

  lemma {:induction false} RunKeepsBytes(cfg: Config, run: seq<Net>, i: nat)
    requires cfg.Valid() && IsRun(cfg, run) && i < |run|
    ensures BothBytes(cfg, run[i])
  {
    hide Inv, BothBytes, Init, Next;
    if i == 0 {
      StartBytes(cfg, run[0]);
    } else {
      RunKeepsBytes(cfg, run, i - 1);
      RunKeepsInv(cfg, run, i - 1);
      assert Next(cfg, run[i - 1], run[i - 1 + 1]);
      NextKeepsBytes(cfg, run[i - 1], run[i]);
    }
  }

  /** In every run the bytes of an unflagged block are those of its packets. */
  lemma BlockBytesAreExact(cfg: Config, run: seq<Net>, i: nat, s: Side, n: nat)
    requires cfg.Valid() && IsRun(cfg, run) && i < |run|
    requires FlipsAround(run[i].At(s), n) && n in run[i].At(s).out && !run[i].At(s).out[n].reset
    ensures run[i].At(s).out[n].txBytes == BytesIn(run[i].pkts, s, n, Short) + BytesIn(run[i].pkts, s, n, Long)
  {
    hide IsRun, BytesIn, TxBytesOk;
    RunKeepsBytes(cfg, run, i);
    assert OutBytes(run[i], s, n);
  }
}
