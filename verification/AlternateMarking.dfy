/** Alternate marking end to end (RFC 9341, sections 3.1 and 5): two routers on
    one tunnel, each running the block loop of crates/agent/src/main.rs over its
    own clock and table, with packets in flight in both directions. Every
    interleaving of sends, deliveries, drops, flips, reads, failed reads and
    firewall reloads is a run; the theorems relate what the two markers queued
    for a block to the packets of that block the network really lost. */
module AlternateMarking {
  import opened Core
  import opened AgentMark
  import opened NftChains

  datatype Side = Left | Right

  function Other(s: Side): Side { if s == Left then Right else Left }

  /** Times are in clock units. A block is two halves; `guard` bounds how late an
      nft call lands after the instant it was scheduled for, `delay` how long a
      packet can be under way, `skew` how far the two clocks disagree. */
  datatype Config = Config(half: int, guard: int, delay: int, skew: int,
                           offLeft: int, offRight: int, ifLeft: string, ifRight: string, secs: nat)
  {
    function Block(): int { 2 * half }
    function Off(s: Side): int { if s == Left then offLeft else offRight }
    function Iface(s: Side): string { if s == Left then ifLeft else ifRight }

    /** The RFC's condition: the guard band is below half a block. */
    ghost predicate Valid() {
      && 0 < half && 0 <= guard && 0 <= delay && 0 <= skew
      && guard + delay + skew < half
      && offLeft - offRight <= skew && offRight - offLeft <= skew
    }
  }

  /** Where the loop is: asleep until block n ends, or flipped to n + 1 and asleep
      until block n is read. */
  datatype Pc = Waiting(n: nat) | Flipped(n: nat, ifaces: seq<string>)

  /** The block a router is in: the last one it flipped to. */
  function Cur(pc: Pc): nat { match pc case Waiting(n) => n case Flipped(n, _) => n + 1 }

  /** `out` collects the blocks queued for the tunnel interface; `missed` holds the
      blocks whose flip failed; `clean` those whose flip managed the interface
      and during which the table was not rebuilt. */
  datatype Router = Router(kernel: Kernel, last: Baselines, pc: Pc,
                           out: map<nat, MarkBlock>, missed: set<nat>, clean: set<nat>)

  /** A packet on the tunnel. `during` is the sender's block when it was sent and
      `marked` says the sender's chain counted and coloured it. */
  datatype Packet = Packet(src: Side, during: nat, marked: bool, hdr: Hdr, sentAt: int)

  /** `window` is the colour-B block the receiver's count of unmarked packets was
      open for when this packet arrived. */
  datatype Delivery = Delivery(at: int, window: Option<nat>)

  datatype Net = Net(now: int, left: Router, right: Router,
                     pkts: map<nat, Packet>, delivered: map<nat, Delivery>, dropped: set<nat>)
  {
    function At(s: Side): Router { if s == Left then left else right }
    function With(s: Side, r: Router): Net { if s == Left then this.(left := r) else this.(right := r) }
    predicate InFlight(id: nat) { id in pkts && id !in delivered && id !in dropped }
  }

  /** The clock reading at which block n begins. */
  function Edge(cfg: Config, n: int): int { n * cfg.Block() }

  function Clock(cfg: Config, net: Net, s: Side): int { net.now + cfg.Off(s) }

  /** No flip to block n or a neighbour failed: from the read of block n - 2 to the
      read of block n the map switched colour at every edge. */
  predicate FlipsAround(r: Router, n: nat) {
    (n >= 1 ==> n - 1 !in r.missed) && n !in r.missed && n + 1 !in r.missed
  }

  // ── Steps ────────────────────────────────────────────────────────────────

  ghost predicate Init(cfg: Config, net: Net) {
    && net.pkts == map[] && net.delivered == map[] && net.dropped == {}
    && StartRouter(cfg, net, Left) && StartRouter(cfg, net, Right)
  }

  /** A freshly loaded table and a loop that has just computed its block. */
  ghost predicate StartRouter(cfg: Config, net: Net, s: Side) {
    var r := net.At(s);
    && Loaded(r.kernel) && r.kernel.colourMap == map[]
    && (forall name: SetName :: r.kernel.sets[name].handle < r.kernel.nextHandle)
    && r.last == map[] && r.out == map[] && r.missed == {} && r.clean == {}
    && r.pc.Waiting?
    && Edge(cfg, r.pc.n) <= Clock(cfg, net, s) < Edge(cfg, r.pc.n) + cfg.Block()
  }

  /** The latest clock reading at which the router's next nft call lands. */
  function Deadline(cfg: Config, pc: Pc): int {
    match pc
    case Waiting(n) => Edge(cfg, n) + cfg.Block() + cfg.guard
    case Flipped(n, _) => Edge(cfg, n) + cfg.Block() + cfg.half + cfg.guard
  }

  /** Time passes; no nft call and no packet is overdue. */
  ghost predicate Wait(cfg: Config, net: Net, net': Net) {
    && net'.now > net.now
    && net' == net.(now := net'.now)
    && Clock(cfg, net', Left) <= Deadline(cfg, net.left.pc)
    && Clock(cfg, net', Right) <= Deadline(cfg, net.right.pc)
    && (forall id :: net.InFlight(id) ==> net'.now <= net.pkts[id].sentAt + cfg.delay)
  }

  predicate Marks(k: Kernel, iface: string, h: Hdr) {
    iface in k.colourMap && HasIface(k, SetName(Tx, k.colourMap[iface], BandOf(h.len)), iface)
  }

  /** A packet with the colour bit clear leaves through the tunnel. */
  ghost predicate Send(cfg: Config, net: Net, net': Net, s: Side, id: nat, h: Hdr) {
    var r := net.At(s);
    var (k, marked) := MarkPacket(r.kernel, cfg.Iface(s), h);
    && id !in net.pkts && !h.bit
    && net' == net.With(s, r.(kernel := k)).(
         pkts := net.pkts[id := Packet(s, Cur(r.pc), Marks(r.kernel, cfg.Iface(s), h), marked, net.now)])
  }

  /** The colour-B block a receiver's baseline of one band is open for. */
  function Window(r: Router, b: Band): Option<nat> {
    var name := SetName(Rx, B, b);
    if name in r.last then Some(r.last[name].readFor + 2) else None
  }

  ghost predicate Deliver(cfg: Config, net: Net, net': Net, id: nat) {
    && net.InFlight(id)
    && var p := net.pkts[id];
       var d := Other(p.src);
       var r := net.At(d);
       net' == net.With(d, r.(kernel := CountPacket(r.kernel, cfg.Iface(d), p.hdr).0)).(
         delivered := net.delivered[id := Delivery(net.now, Window(r, BandOf(p.hdr.len)))])
  }

  ghost predicate Drop(net: Net, net': Net, id: nat) {
    net.InFlight(id) && net' == net.(dropped := net.dropped + {id})
  }

  /** Block n ended: assert block n + 1, or fail to. */
  ghost predicate Flip(cfg: Config, net: Net, net': Net, s: Side, ifaces: seq<string>, ok: bool) {
    var r := net.At(s);
    && r.pc.Waiting?
    && Edge(cfg, r.pc.n) + cfg.Block() <= Clock(cfg, net, s)
    && net' == net.With(s, r.(
         kernel := if ok then AssertBlock(r.kernel, ifaces, r.pc.n + 1) else r.kernel,
         pc := Flipped(r.pc.n, ifaces),
         missed := if ok then r.missed else r.missed + {r.pc.n + 1},
         clean := if ok && cfg.Iface(s) in Managed(ifaces) then r.clean + {r.pc.n + 1} else r.clean))
  }

  /** What a successful read of block n queues for the tunnel interface. */
  function QueueBlock(cfg: Config, r: Router, s: Side, n: nat, ifaces: seq<string>, underTest: bool)
    : map<nat, MarkBlock>
    requires Complete(r.kernel.sets, n)
  {
    var b := BlockFor(r.last, r.kernel.sets, cfg.Iface(s), n, cfg.secs, underTest);
    if cfg.Iface(s) in ifaces && b.Some? then r.out[n := b.value] else r.out
  }

  /** Half a block after the flip: read block n, or fail to; then the loop starts
      over from the block its clock is in. */
  ghost predicate Read(cfg: Config, net: Net, net': Net, s: Side, ok: bool, underTest: bool)
    requires cfg.half > 0
  {
    var r := net.At(s);
    && r.pc.Flipped?
    && Edge(cfg, r.pc.n) + cfg.Block() + cfg.half <= Clock(cfg, net, s)
    && var n := r.pc.n;
       var next := Clock(cfg, net, s) / cfg.Block();
       && next >= 0
       && (ok ==> Complete(r.kernel.sets, n))
       && net' == net.With(s, r.(
            pc := Waiting(next),
            last := if ok then Advance(r.last, r.kernel.sets, n) else r.last,
            out := if ok then QueueBlock(cfg, r, s, n, r.pc.ifaces, underTest) else r.out))
  }

  /** fw4 reloads: counters, membership and map are gone, handles are fresh. */
  ghost predicate Reload(net: Net, net': Net, s: Side) {
    var r := net.At(s);
    net' == net.With(s, r.(kernel := Rebuild(r.kernel), clean := r.clean - {Cur(r.pc)}))
  }

  ghost predicate Next(cfg: Config, net: Net, net': Net)
    requires cfg.half > 0
  {
    || Wait(cfg, net, net')
    || (exists s, id, h :: Send(cfg, net, net', s, id, h))
    || (exists id :: Deliver(cfg, net, net', id))
    || (exists id :: Drop(net, net', id))
    || (exists s, ifaces, ok :: Flip(cfg, net, net', s, ifaces, ok))
    || (exists s, ok, underTest :: Read(cfg, net, net', s, ok, underTest))
    || (exists s :: Reload(net, net', s))
  }

  ghost predicate IsRun(cfg: Config, run: seq<Net>)
    requires cfg.half > 0
  {
    && |run| > 0 && Init(cfg, run[0])
    && forall i :: 0 <= i < |run| - 1 ==> Next(cfg, run[i], run[i + 1])
  }

  // ── The packets of a block and their fates ───────────────────────────────

  predicate InBlock(p: Packet, s: Side, n: nat, b: Band) {
    p.src == s && p.marked && p.during == n && BandOf(p.hdr.len) == b
  }

  /** The packets of block n: those s sent, and coloured, while n was its block. */
  function SentIn(pkts: map<nat, Packet>, s: Side, n: nat, b: Band): set<nat> {
    set id | id in pkts && InBlock(pkts[id], s, n, b)
  }

  function DeliveredIn(pkts: map<nat, Packet>, delivered: map<nat, Delivery>, s: Side, n: nat, b: Band): set<nat> {
    set id | id in delivered && id in pkts && InBlock(pkts[id], s, n, b)
  }

  function DroppedIn(pkts: map<nat, Packet>, dropped: set<nat>, s: Side, n: nat, b: Band): set<nat> {
    set id | id in dropped && id in pkts && InBlock(pkts[id], s, n, b)
  }

  predicate Stray(p: Packet, d: Delivery, s: Side, n: nat, b: Band) {
    p.src == s && !p.marked && BandOf(p.hdr.len) == b && d.window == Some(n)
  }

  /** Unmarked packets of s that arrived while the peer was counting block n. */
  function StrayIn(pkts: map<nat, Packet>, delivered: map<nat, Delivery>, s: Side, n: nat, b: Band): set<nat> {
    set id | id in delivered && id in pkts && Stray(pkts[id], delivered[id], s, n, b)
  }
}
