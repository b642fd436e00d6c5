/** The agent's half of alternate marking (crates/agent/src/mark.rs): counter
    baselines, per-block deltas, reset detection and the bounded block queue. */
module AgentMark {
  import opened Core

  datatype Colour = A | B
  datatype Dir = Tx | Rx
  datatype Band = Short | Long

  /** One of the eight counter sets of the nft include. */
  datatype SetName = SetName(dir: Dir, colour: Colour, band: Band)

  datatype Counter = Counter(pkts: nat, bytes: nat)
  datatype SetCounters = SetCounters(handle: nat, elems: map<string, Counter>)
  type Listing = map<SetName, SetCounters>

  /** A read of one set, with the block it was made for. */
  datatype Baseline = Baseline(readFor: nat, sets: SetCounters)
  type Baselines = map<SetName, Baseline>

  datatype MarkBlock = MarkBlock(
    n: nat, secs: nat,
    txS: nat, txL: nat, txBytes: nat,
    rxS: nat, rxL: nat, rxBytes: nat,
    reset: bool, underTest: bool)

  datatype ReadOutcome = ReadOutcome(blocks: nat, resets: nat)

  type Queue = map<string, seq<MarkBlock>>

  const QUEUE_CAP: nat := 64

  function ColourOf(n: nat): Colour { if n % 2 == 0 then A else B }

  /** The set of block n's colour with the given direction and band; a read of
      block n looks at exactly these four. */
  function NameOf(n: nat, dir: Dir, band: Band): SetName { SetName(dir, ColourOf(n), band) }

  predicate Complete(sets: Listing, n: nat) {
    && NameOf(n, Tx, Short) in sets && NameOf(n, Tx, Long) in sets
    && NameOf(n, Rx, Short) in sets && NameOf(n, Rx, Long) in sets
  }

  /** The baseline of block n is the read of block n - 2 and nothing else. */
  function BaselineOf(last: Baselines, name: SetName, n: nat): Option<SetCounters> {
    if name in last && last[name].readFor + 2 == n then Some(last[name].sets) else None
  }

  predicate HasElem(last: Baselines, name: SetName, iface: string, n: nat) {
    BaselineOf(last, name, n).Some? && iface in BaselineOf(last, name, n).value.elems
  }

  predicate HadBaseline(last: Baselines, iface: string, n: nat) {
    && HasElem(last, NameOf(n, Tx, Short), iface, n) && HasElem(last, NameOf(n, Tx, Long), iface, n)
    && HasElem(last, NameOf(n, Rx, Short), iface, n) && HasElem(last, NameOf(n, Rx, Long), iface, n)
  }

  predicate HandleChanged(last: Baselines, sets: Listing, name: SetName, n: nat)
    requires name in sets
  {
    BaselineOf(last, name, n).Some? && BaselineOf(last, name, n).value.handle != sets[name].handle
  }

  /** The table was rebuilt since the baseline: some handle changed. */
  predicate Rebuilt(last: Baselines, sets: Listing, n: nat)
    requires Complete(sets, n)
  {
    || HandleChanged(last, sets, NameOf(n, Tx, Short), n) || HandleChanged(last, sets, NameOf(n, Tx, Long), n)
    || HandleChanged(last, sets, NameOf(n, Rx, Short), n) || HandleChanged(last, sets, NameOf(n, Rx, Long), n)
  }

  /** Packets and bytes of one set since its baseline; None without one or when
      either counter went backwards. */
  function Delta(last: Baselines, sets: Listing, name: SetName, iface: string, n: nat): Option<Counter>
    requires name in sets
  {
    var base := BaselineOf(last, name, n);
    if iface in sets[name].elems && base.Some? && iface in base.value.elems then
      var now, prev := sets[name].elems[iface], base.value.elems[iface];
      if prev.pkts <= now.pkts && prev.bytes <= now.bytes
      then Some(Counter(now.pkts - prev.pkts, now.bytes - prev.bytes))
      else None
    else None
  }

  function ResetBlock(n: nat, secs: nat, underTest: bool): MarkBlock {
    MarkBlock(n, secs, 0, 0, 0, 0, 0, 0, true, underTest)
  }

  /** What one read queues for one interface, if anything. */
  function BlockFor(last: Baselines, sets: Listing, iface: string, n: nat, secs: nat, underTest: bool)
    : (b: Option<MarkBlock>)
    requires Complete(sets, n)
    ensures b.Some? ==> b.value.n == n && b.value.secs == secs && b.value.underTest == underTest
  {
    if !HadBaseline(last, iface, n) then None
    else
      var txS := Delta(last, sets, NameOf(n, Tx, Short), iface, n);
      var txL := Delta(last, sets, NameOf(n, Tx, Long), iface, n);
      var rxS := Delta(last, sets, NameOf(n, Rx, Short), iface, n);
      var rxL := Delta(last, sets, NameOf(n, Rx, Long), iface, n);
      if Rebuilt(last, sets, n) || txS.None? || txL.None? || rxS.None? || rxL.None?
      then Some(ResetBlock(n, secs, underTest))
      else Some(MarkBlock(n, secs,
                          txS.value.pkts, txL.value.pkts, txS.value.bytes + txL.value.bytes,
                          rxS.value.pkts, rxL.value.pkts, rxS.value.bytes + rxL.value.bytes,
                          false, underTest))
  }

  /** Only the colour just read moves its baselines. */
  function Advance(last: Baselines, sets: Listing, n: nat): Baselines
    requires Complete(sets, n)
  {
    var (txS, txL) := (NameOf(n, Tx, Short), NameOf(n, Tx, Long));
    var (rxS, rxL) := (NameOf(n, Rx, Short), NameOf(n, Rx, Long));
    last[txS := Baseline(n, sets[txS])][txL := Baseline(n, sets[txL])]
    [rxS := Baseline(n, sets[rxS])][rxL := Baseline(n, sets[rxL])]
  }

  lemma AdvanceEntry(last: Baselines, sets: Listing, n: nat, name: SetName)
    requires Complete(sets, n)
    ensures name.colour == ColourOf(n) ==>
              name in sets && name in Advance(last, sets, n)
              && Advance(last, sets, n)[name] == Baseline(n, sets[name])
    ensures name.colour != ColourOf(n) ==>
              && (name in Advance(last, sets, n) <==> name in last)
              && (name in last ==> Advance(last, sets, n)[name] == last[name])
  {
    match (name.dir, name.band)
    case (Tx, Short) => assert name == SetName(Tx, name.colour, Short);
    case (Tx, Long) => assert name == SetName(Tx, name.colour, Long);
    case (Rx, Short) => assert name == SetName(Rx, name.colour, Short);
    case (Rx, Long) => assert name == SetName(Rx, name.colour, Long);
  }

  function QueueOf(queue: Queue, iface: string): seq<MarkBlock> {
    if iface in queue then queue[iface] else []
  }

  /** Append, dropping the oldest block of a full queue. */
  function PushOne(q: seq<MarkBlock>, b: MarkBlock): seq<MarkBlock> {
    (if |q| >= QUEUE_CAP then q[1..] else q) + [b]
  }

  function PushBlock(queue: Queue, iface: string, b: MarkBlock): Queue {
    queue[iface := PushOne(QueueOf(queue, iface), b)]
  }

  /** The queue and outcome after the interfaces of one read were handled in order. */
  function ReadIfaces(queue: Queue, last: Baselines, sets: Listing, ifaces: seq<string>,
                      n: nat, secs: nat, underTest: bool): (Queue, ReadOutcome)
    requires Complete(sets, n)
  {
    if ifaces == [] then (queue, ReadOutcome(0, 0))
    else
      var iface := ifaces[|ifaces| - 1];
      var (q, out) := ReadIfaces(queue, last, sets, ifaces[..|ifaces| - 1], n, secs, underTest);
      match BlockFor(last, sets, iface, n, secs, underTest)
      case None => (q, out)
      case Some(b) =>
        (PushBlock(q, iface, b), ReadOutcome(out.blocks + 1, out.resets + if b.reset then 1 else 0))
  }

  /** `Marker`: the block task's state. `reply` is the parsed set listing, None
      when the nft call failed. */
  class Marker {
    const secs: nat
    var last: Baselines
    var queue: Queue

    constructor (secs: nat)
      ensures this.secs == secs && last == map[] && queue == map[]
    {
      this.secs := secs;
      last := map[];
      queue := map[];
    }

    /** Finish block n. A failed listing or a missing set is an error that
        changes nothing, so the baselines stay stale. */
    method Read(reply: Option<Listing>, ifaces: seq<string>, n: nat, underTest: bool)
      returns (out: Option<ReadOutcome>)
      modifies this
      ensures out.Some? <==> reply.Some? && Complete(reply.value, n)
      ensures out.None? ==> last == old(last) && queue == old(queue)
      ensures out.Some? ==>
        && last == Advance(old(last), reply.value, n)
        && (queue, out.value)
           == ReadIfaces(old(queue), old(last), reply.value, ifaces, n, secs, underTest)
    {
      if reply.None? || !Complete(reply.value, n) {
        return None;
      }
      var sets := reply.value;
      var outcome := ReadOutcome(0, 0);
      var k := 0;
      while k < |ifaces|
        invariant 0 <= k <= |ifaces|
        invariant last == old(last)
        invariant (queue, outcome)
                  == ReadIfaces(old(queue), last, sets, ifaces[..k], n, secs, underTest)
      {
        assert ifaces[..k + 1][..k] == ifaces[..k];
        var b := BlockFor(last, sets, ifaces[k], n, secs, underTest);
        if b.Some? {
          outcome := ReadOutcome(outcome.blocks + 1, outcome.resets + if b.value.reset then 1 else 0);
          queue := PushBlock(queue, ifaces[k], b.value);
        }
        k := k + 1;
      }
      assert ifaces[..k] == ifaces;
      last := Advance(last, sets, n);
      out := Some(outcome);
    }

    /** Drain the finished blocks of an interface, oldest first. */
    method TakeBlocks(iface: string) returns (bs: seq<MarkBlock>)
      modifies this`queue
      ensures bs == if iface in old(queue) then old(queue)[iface] else []
      ensures queue == if iface in old(queue) then old(queue)[iface := []] else old(queue)
    {
      if iface in queue {
        bs := queue[iface];
        queue := queue[iface := []];
      } else {
        bs := [];
      }
    }
  }

  // ── Runs of reads ────────────────────────────────────────────────────────

  /** One call of `read`, with what nft answered. */
  datatype ReadCall = ReadCall(reply: Option<Listing>, ifaces: seq<string>, n: nat, underTest: bool) {
    predicate Ok() { reply.Some? && Complete(reply.value, n) }
  }

  /** The marker's loop reads blocks in increasing order. */
  ghost predicate IncreasingReads(calls: seq<ReadCall>) {
    forall i, j :: 0 <= i < j < |calls| ==> calls[i].n < calls[j].n
  }

  /** Interface names are unique on a node. */
  ghost predicate DistinctIfaces(ifaces: seq<string>) {
    forall i, j :: 0 <= i < j < |ifaces| ==> ifaces[i] != ifaces[j]
  }

  function BaselinesAfter(calls: seq<ReadCall>): Baselines {
    if calls == [] then map[]
    else
      var k := |calls| - 1;
      var last := BaselinesAfter(calls[..k]);
      if calls[k].Ok() then Advance(last, calls[k].reply.value, calls[k].n) else last
  }

  /** What call k queues for an interface. */
  function Emitted(calls: seq<ReadCall>, k: nat, iface: string, secs: nat): (b: Option<MarkBlock>)
    requires k < |calls|
    ensures b.Some? ==> b.value.n == calls[k].n
  {
    if calls[k].Ok() && iface in calls[k].ifaces
    then BlockFor(BaselinesAfter(calls[..k]), calls[k].reply.value, iface, calls[k].n, secs, calls[k].underTest)
    else None
  }

  /** Everything ever queued for an interface, in queue order. */
  function History(calls: seq<ReadCall>, iface: string, secs: nat): seq<MarkBlock> {
    if calls == [] then []
    else
      var k := |calls| - 1;
      History(calls[..k], iface, secs)
      + (match Emitted(calls, k, iface, secs) case Some(b) => [b] case None => [])
  }

  /** The queue after a run of reads nobody drained. */
  function QueueAfter(calls: seq<ReadCall>, secs: nat): Queue {
    if calls == [] then map[]
    else
      var k := |calls| - 1;
      var q := QueueAfter(calls[..k], secs);
      if calls[k].Ok()
      then ReadIfaces(q, BaselinesAfter(calls[..k]), calls[k].reply.value, calls[k].ifaces,
                      calls[k].n, secs, calls[k].underTest).0
      else q
  }

  function Newest<T>(s: seq<T>, cap: nat): seq<T> {
    if |s| <= cap then s else s[|s| - cap..]
  }

  /** One read pushes an interface's block once, whatever the other interfaces do. */
  lemma {:induction false} ReadPushesOwnBlock(queue: Queue, last: Baselines, sets: Listing,
                                              ifaces: seq<string>, n: nat, secs: nat,
                                              underTest: bool, iface: string)
    requires Complete(sets, n) && DistinctIfaces(ifaces)
    ensures QueueOf(ReadIfaces(queue, last, sets, ifaces, n, secs, underTest).0, iface)
            == match BlockFor(last, sets, iface, n, secs, underTest)
               case Some(b) => if iface in ifaces then PushOne(QueueOf(queue, iface), b) else QueueOf(queue, iface)
               case None => QueueOf(queue, iface)
  {
    hide Complete, BlockFor, PushOne;
    if ifaces != [] {
      var k := |ifaces| - 1;
      var init := ifaces[..k];
      ReadPushesOwnBlock(queue, last, sets, init, n, secs, underTest, iface);
      assert ifaces == init + [ifaces[k]];
    }
  }

  lemma NewestAfterPush(h: seq<MarkBlock>, b: MarkBlock)
    ensures PushOne(Newest(h, QUEUE_CAP), b) == Newest(h + [b], QUEUE_CAP)
  {
  }

  /** The undrained queue is the newest 64 blocks of the history: nothing
      but the oldest is ever dropped. */
  lemma {:induction false} QueueKeepsNewest(calls: seq<ReadCall>, iface: string, secs: nat)
    requires forall k :: 0 <= k < |calls| ==> DistinctIfaces(calls[k].ifaces)
    ensures QueueOf(QueueAfter(calls, secs), iface) == Newest(History(calls, iface, secs), 64)
  {
    hide BlockFor, BaselinesAfter, PushOne, ReadIfaces;
    if calls != [] {
      var k := |calls| - 1;
      QueueKeepsNewest(calls[..k], iface, secs);
      var e := Emitted(calls, k, iface, secs);
      if e.Some? {
        NewestAfterPush(History(calls[..k], iface, secs), e.value);
      }
      if calls[k].Ok() {
        ReadPushesOwnBlock(QueueAfter(calls[..k], secs), BaselinesAfter(calls[..k]), calls[k].reply.value,
                           calls[k].ifaces, calls[k].n, secs, calls[k].underTest, iface);
      }
    }
  }

  /** Every block of the history carries the number of a call of the run. */
  lemma {:induction false} HistoryNumbers(calls: seq<ReadCall>, iface: string, secs: nat, j: nat)
    requires IncreasingReads(calls)
    requires j < |History(calls, iface, secs)|
    ensures exists k :: 0 <= k < |calls| && calls[k].n == History(calls, iface, secs)[j].n
  {
    var k := |calls| - 1;
    var before := History(calls[..k], iface, secs);
    if j < |before| {
      HistoryNumbers(calls[..k], iface, secs, j);
      var i :| 0 <= i < |calls[..k]| && calls[..k][i].n == before[j].n;
      assert calls[i].n == History(calls, iface, secs)[j].n;
    } else {
      assert calls[k].n == History(calls, iface, secs)[j].n;
    }
  }

  ghost predicate Ascending(h: seq<MarkBlock>) {
    forall i, j :: 0 <= i < j < |h| ==> h[i].n < h[j].n
  }

  /** Each (interface, block) is queued at most once, in block order. */
  lemma {:induction false} QueuedOnceInOrder(calls: seq<ReadCall>, iface: string, secs: nat)
    requires IncreasingReads(calls)
    ensures Ascending(History(calls, iface, secs))
  {
    hide ReadCall.Ok, Emitted, BlockFor, BaselinesAfter;
    if calls != [] {
      var k := |calls| - 1;
      QueuedOnceInOrder(calls[..k], iface, secs);
      var before := History(calls[..k], iface, secs);
      forall i | 0 <= i < |before| ensures before[i].n < calls[k].n {
        HistoryNumbers(calls[..k], iface, secs, i);
      }
    }
  }

  // ── What a non-reset block covers ────────────────────────────────────────

  /** The call of the latest successful read of `colour` in the run, or |calls|. */
  function LatestRead(calls: seq<ReadCall>, colour: Colour): (i: nat)
    ensures i <= |calls|
    ensures i < |calls| ==> calls[i].Ok() && ColourOf(calls[i].n) == colour
    ensures forall j :: (if i < |calls| then i else -1) < j < |calls| ==>
              !(calls[j].Ok() && ColourOf(calls[j].n) == colour)
  {
    if calls == [] then 0
    else
      var k := |calls| - 1;
      if calls[k].Ok() && ColourOf(calls[k].n) == colour then k
      else
        var i := LatestRead(calls[..k], colour);
        if i < k then assert calls[..k][i] == calls[i]; i else |calls|
  }

  /** The baselines hold exactly the latest successful read of each colour. */
  lemma {:induction false} BaselinesAreLatestReads(calls: seq<ReadCall>, name: SetName)
    ensures var i := LatestRead(calls, name.colour);
            && (name in BaselinesAfter(calls) <==> i < |calls|)
            && (i < |calls| ==>
                  && name in calls[i].reply.value
                  && BaselinesAfter(calls)[name] == Baseline(calls[i].n, calls[i].reply.value[name]))
  {
    if calls != [] {
      var k := |calls| - 1;
      BaselinesAreLatestReads(calls[..k], name);
      if calls[k].Ok() {
        AdvanceEntry(BaselinesAfter(calls[..k]), calls[k].reply.value, calls[k].n, name);
      }
      hide Advance, Complete;
      var i := LatestRead(calls[..k], name.colour);
      assert i < k ==> calls[..k][i] == calls[i];
    }
  }

  /** Two reads of one set within one table generation, both listing the
      interface, the second not below the first. */
  ghost predicate Spans(calls: seq<ReadCall>, i: nat, k: nat, iface: string, name: SetName) {
    && i < k < |calls|
    && calls[i].Ok() && calls[k].Ok()
    && name in calls[i].reply.value && name in calls[k].reply.value
    && calls[i].reply.value[name].handle == calls[k].reply.value[name].handle
    && iface in calls[i].reply.value[name].elems && iface in calls[k].reply.value[name].elems
    && calls[i].reply.value[name].elems[iface].pkts <= calls[k].reply.value[name].elems[iface].pkts
  }

  function CountAt(calls: seq<ReadCall>, i: nat, iface: string, name: SetName): Counter
    requires i < |calls| && calls[i].reply.Some? && name in calls[i].reply.value
    requires iface in calls[i].reply.value[name].elems
  {
    calls[i].reply.value[name].elems[iface]
  }

  function PktsOf(b: MarkBlock, dir: Dir, band: Band): nat {
    match (dir, band)
    case (Tx, Short) => b.txS
    case (Tx, Long) => b.txL
    case (Rx, Short) => b.rxS
    case (Rx, Long) => b.rxL
  }

  /** A non-reset block is the counter difference between the read of its own
      block and the read of block n - 2, within one table generation, in every
      direction and band. */
  lemma BlockIsCounterDifference(calls: seq<ReadCall>, k: nat, iface: string, secs: nat, dir: Dir, band: Band)
    requires k < |calls|
    requires Emitted(calls, k, iface, secs).Some? && !Emitted(calls, k, iface, secs).value.reset
    ensures var name := SetName(dir, ColourOf(calls[k].n), band);
            var i := LatestRead(calls[..k], name.colour);
            && Spans(calls, i, k, iface, name)
            && calls[i].n + 2 == calls[k].n
            && PktsOf(Emitted(calls, k, iface, secs).value, dir, band)
               == CountAt(calls, k, iface, name).pkts - CountAt(calls, i, iface, name).pkts
  {
    var name := SetName(dir, ColourOf(calls[k].n), band);
    BaselinesAreLatestReads(calls[..k], name);
    var last := BaselinesAfter(calls[..k]);
    assert BaselineOf(last, name, calls[k].n).Some?;
    var i := LatestRead(calls[..k], name.colour);
    assert calls[..k][i] == calls[i];
  }

  /** No tick lands in two blocks: the read intervals (baseline, read] of two
      non-reset blocks of one interface and colour do not overlap. */
  lemma IntervalsAreDisjoint(calls: seq<ReadCall>, k1: nat, k2: nat, iface: string, secs: nat)
    requires k1 < k2 < |calls|
    requires Emitted(calls, k1, iface, secs).Some? && Emitted(calls, k2, iface, secs).Some?
    requires !Emitted(calls, k1, iface, secs).value.reset && !Emitted(calls, k2, iface, secs).value.reset
    requires ColourOf(calls[k1].n) == ColourOf(calls[k2].n)
    ensures LatestRead(calls[..k1], ColourOf(calls[k1].n)) < k1
    ensures k1 <= LatestRead(calls[..k2], ColourOf(calls[k2].n)) < k2
  {
    BlockIsCounterDifference(calls, k1, iface, secs, Tx, Short);
    BlockIsCounterDifference(calls, k2, iface, secs, Tx, Short);
    assert calls[..k2][k1] == calls[k1];
  }

  /** A chain of calls ks: each entry's block is non-reset and uses the previous
      entry's read as its baseline. */
  ghost predicate BlockChain(calls: seq<ReadCall>, ks: seq<nat>, iface: string, secs: nat) {
    && |ks| > 0
    && (forall t :: 0 <= t < |ks| ==> ks[t] < |calls|)
    && (forall t :: 0 <= t < |ks| - 1 ==> Linked(calls, ks[t], ks[t + 1], iface, secs))
  }

  ghost predicate Linked(calls: seq<ReadCall>, i: nat, k: nat, iface: string, secs: nat) {
    && i < k < |calls|
    && calls[i].Ok() && calls[i].n + 2 == calls[k].n
    && Emitted(calls, k, iface, secs).Some? && !Emitted(calls, k, iface, secs).value.reset
  }

  function SumPkts(calls: seq<ReadCall>, ks: seq<nat>, iface: string, secs: nat, dir: Dir, band: Band): nat
    requires forall t :: 0 <= t < |ks| ==> ks[t] < |calls|
  {
    if |ks| <= 1 then 0
    else
      var e := Emitted(calls, ks[|ks| - 1], iface, secs);
      SumPkts(calls, ks[..|ks| - 1], iface, secs, dir, band)
      + if e.Some? then PktsOf(e.value, dir, band) else 0
  }

  /** Consecutive non-reset blocks of one colour telescope: together they carry
      every tick between the first baseline and the last read, once. */
  lemma {:induction false} DeltasTelescope(calls: seq<ReadCall>, ks: seq<nat>, iface: string, secs: nat,
                                           dir: Dir, band: Band)
    requires IncreasingReads(calls) && BlockChain(calls, ks, iface, secs) && |ks| > 1
    ensures var name := NameOf(calls[ks[0]].n, dir, band);
            && name == NameOf(calls[ks[|ks| - 1]].n, dir, band)
            && Spans(calls, ks[0], ks[|ks| - 1], iface, name)
            && SumPkts(calls, ks, iface, secs, dir, band)
               == CountAt(calls, ks[|ks| - 1], iface, name).pkts - CountAt(calls, ks[0], iface, name).pkts
  {
    hide ReadCall.Ok, Emitted, BlockFor;
    var m := |ks| - 1;
    var init := ks[..m];
    LinkSpans(calls, init[m - 1], ks[m], iface, secs, dir, band);
    if m > 1 {
      assert BlockChain(calls, init, iface, secs) by {
        assert forall t :: 0 <= t < m ==> init[t] == ks[t];
      }
      DeltasTelescope(calls, init, iface, secs, dir, band);
      var name := NameOf(calls[ks[0]].n, dir, band);
      assert Spans(calls, ks[0], ks[m - 1], iface, name);
      assert Spans(calls, ks[m - 1], ks[m], iface, name);
      assert SumPkts(calls, ks, iface, secs, dir, band)
          == SumPkts(calls, init, iface, secs, dir, band)
             + PktsOf(Emitted(calls, ks[m], iface, secs).value, dir, band);
    }
  }

  /** One link of a chain: the later block is the difference of the two reads. */
  lemma LinkSpans(calls: seq<ReadCall>, i: nat, k: nat, iface: string, secs: nat, dir: Dir, band: Band)
    requires IncreasingReads(calls) && Linked(calls, i, k, iface, secs)
    ensures var name := NameOf(calls[k].n, dir, band);
            && name == NameOf(calls[i].n, dir, band)
            && Spans(calls, i, k, iface, name)
            && PktsOf(Emitted(calls, k, iface, secs).value, dir, band)
               == CountAt(calls, k, iface, name).pkts - CountAt(calls, i, iface, name).pkts
  {
    BlockIsCounterDifference(calls, k, iface, secs, dir, band);
    hide Emitted, BlockFor;
    assert calls[..k][i] == calls[i];
    assert LatestRead(calls[..k], ColourOf(calls[k].n)) == i;
  }
}
