/** The controller's half of alternate marking (crates/controller/src/mark.rs):
    joining two halves of a block, the asymmetric loss window, the loss shape and
    the loss-to-rate models. */
module ControllerMark {
  import opened Core
  import opened Samples

  /** One joined block of a directed link. */
  datatype Block = Block(n: nat, ts: nat, secs: nat, sentS: nat, sentL: nat, recvS: nat, recvL: nat,
                         bytes: nat, underTest: bool)
  {
    function Sent(): nat { sentS + sentL }
    function LostS(): nat { SatSub(sentS, recvS) }
    function LostL(): nat { SatSub(sentL, recvL) }
    function Lost(): nat { LostS() + LostL() }
    function RateMbps(): real { (bytes * 8) as real / (Max(secs, 1) as real * 1000000.0) }
  }

  function Pct(part: nat, whole: nat): real
    requires whole > 0
  {
    part as real * 100.0 / whole as real
  }

  // ── Join ─────────────────────────────────────────────────────────────────

  /** The peer's block samples by block number; a later sample wins. */
  function RxByBlock(rev: seq<Sample>): map<nat, Sample> {
    if rev == [] then map[]
    else
      var k := |rev| - 1;
      var rx := RxByBlock(rev[..k]);
      if rev[k].IsBlock() then rx[rev[k].mark[BlockN] := rev[k]] else rx
  }

  /** The halves can be joined: same length, neither reset, all counters there. */
  predicate Joins(tx: Sample, rx: Sample) {
    && !tx.Flag(MARK_RESET) && !rx.Flag(MARK_RESET)
    && Secs in tx.mark && Secs in rx.mark && tx.mark[Secs] == rx.mark[Secs]
    && TxS in tx.mark && TxL in tx.mark && TxBytes in tx.mark
    && RxS in rx.mark && RxL in rx.mark
  }

  function JoinedBlock(tx: Sample, rx: Sample): Block
    requires tx.IsBlock() && Joins(tx, rx)
  {
    Block(tx.mark[BlockN], tx.ts, tx.mark[Secs], tx.mark[TxS], tx.mark[TxL], rx.mark[RxS], rx.mark[RxL],
          tx.mark[TxBytes], tx.Flag(MARK_UNDER_TEST) || rx.Flag(MARK_UNDER_TEST))
  }

  function JoinOne(tx: Sample, rx: map<nat, Sample>): Option<Block> {
    if tx.IsBlock() && tx.mark[BlockN] in rx && Joins(tx, rx[tx.mark[BlockN]])
    then Some(JoinedBlock(tx, rx[tx.mark[BlockN]]))
    else None
  }

  function JoinInOrder(own: seq<Sample>, rx: map<nat, Sample>): seq<Block> {
    if own == [] then []
    else
      var k := |own| - 1;
      JoinInOrder(own[..k], rx) + (match JoinOne(own[k], rx) case Some(b) => [b] case None => [])
  }

  /** One step of a stable sort by block number that keeps the first of equals. */
  function InsertByN(sorted: seq<Block>, b: Block): seq<Block> {
    if sorted == [] || sorted[|sorted| - 1].n < b.n then sorted + [b]
    else if sorted[|sorted| - 1].n == b.n then sorted
    else InsertByN(sorted[..|sorted| - 1], b) + [sorted[|sorted| - 1]]
  }

  function SortDedup(bs: seq<Block>): seq<Block> {
    if bs == [] then [] else InsertByN(SortDedup(bs[..|bs| - 1]), bs[|bs| - 1])
  }

  function Join(own: seq<Sample>, rev: seq<Sample>): seq<Block> {
    SortDedup(JoinInOrder(own, RxByBlock(rev)))
  }

  predicate Ascending(bs: seq<Block>) {
    forall i, j :: 0 <= i < j < |bs| ==> bs[i].n < bs[j].n
  }

  /** The first of bs with number n: the reference `Join` is compared with. */
  function FirstWithN(bs: seq<Block>, n: nat): Option<Block> {
    if bs == [] then None
    else if FirstWithN(bs[..|bs| - 1], n).Some? then FirstWithN(bs[..|bs| - 1], n)
    else if bs[|bs| - 1].n == n then Some(bs[|bs| - 1]) else None
  }

  lemma {:induction false} InsertKeepsAscending(sorted: seq<Block>, b: Block)
    requires Ascending(sorted)
    ensures Ascending(InsertByN(sorted, b))
    ensures forall x :: x in InsertByN(sorted, b) <==>
              x in sorted || (x == b && forall y :: y in sorted ==> y.n != b.n)
  {
    if sorted == [] || sorted[|sorted| - 1].n < b.n {
    } else if sorted[|sorted| - 1].n > b.n {
      var init, final := sorted[..|sorted| - 1], sorted[|sorted| - 1];
      assert sorted == init + [final];
      InsertKeepsAscending(init, b);
      var ins := InsertByN(init, b);
      forall i | 0 <= i < |ins| ensures ins[i].n < final.n {
        assert ins[i] in ins;
        if ins[i] in init {
          var j :| 0 <= j < |init| && init[j] == ins[i];
          assert sorted[j].n < sorted[|init|].n;
        }
      }
    }
  }

  lemma {:induction false} SortDedupKeepsFirsts(bs: seq<Block>)
    ensures Ascending(SortDedup(bs))
    ensures forall x :: x in SortDedup(bs) <==> FirstWithN(bs, x.n) == Some(x)
    ensures forall n :: FirstWithN(bs, n).Some? ==> FirstWithN(bs, n).value.n == n
  {
    if bs != [] {
      var init, b := bs[..|bs| - 1], bs[|bs| - 1];
      SortDedupKeepsFirsts(init);
      InsertKeepsAscending(SortDedup(init), b);
      forall x ensures x in SortDedup(bs) <==> FirstWithN(bs, x.n) == Some(x) {
        if FirstWithN(init, b.n).Some? {
          assert FirstWithN(init, b.n).value in SortDedup(init);
        }
      }
    }
  }

  predicate IsBlockOf(s: Sample, n: nat) { s.IsBlock() && s.mark[BlockN] == n }

  /** The peer's last sample of block n. */
  ghost predicate IsLast(rev: seq<Sample>, n: nat, rx: Sample) {
    exists k :: 0 <= k < |rev| && rev[k] == rx && IsBlockOf(rev[k], n)
             && forall j :: k < j < |rev| ==> !IsBlockOf(rev[j], n)
  }

  lemma LastMore(rev: seq<Sample>, n: nat, rx: Sample)
    requires rev != []
    ensures var k := |rev| - 1;
            IsLast(rev, n, rx) == if IsBlockOf(rev[k], n) then rev[k] == rx else IsLast(rev[..k], n, rx)
  {
    var k := |rev| - 1;
    var front := rev[..k];
    hide IsBlockOf;
    assert forall j :: 0 <= j < k ==> front[j] == rev[j];
    if IsLast(front, n, rx) && !IsBlockOf(rev[k], n) {
      var j :| 0 <= j < k && front[j] == rx && IsBlockOf(front[j], n)
        && forall i :: j < i < k ==> !IsBlockOf(front[i], n);
      assert rev[j] == rx;
    }
  }

  lemma {:induction false} RxIsLast(rev: seq<Sample>, n: nat, rx: Sample)
    ensures IsLast(rev, n, rx) <==> n in RxByBlock(rev) && RxByBlock(rev)[n] == rx
  {
    if rev != [] {
      LastMore(rev, n, rx);
      RxIsLast(rev[..|rev| - 1], n, rx);
      hide IsLast;
    }
  }

  /** The first of the own samples that makes an entry of number n makes this one. */
  ghost predicate IsFirst(own: seq<Sample>, rx: map<nat, Sample>, n: nat, b: Block) {
    exists i :: 0 <= i < |own| && JoinOne(own[i], rx) == Some(b) && b.n == n
             && forall j :: 0 <= j < i ==> !Makes(own[j], rx, n)
  }

  predicate Makes(tx: Sample, rx: map<nat, Sample>, n: nat) {
    JoinOne(tx, rx).Some? && JoinOne(tx, rx).value.n == n
  }

  lemma {:induction false} FirstIsFirst(own: seq<Sample>, rx: map<nat, Sample>, n: nat)
    ensures forall b :: FirstWithN(JoinInOrder(own, rx), n) == Some(b) <==> IsFirst(own, rx, n, b)
    ensures FirstWithN(JoinInOrder(own, rx), n) == None <==> forall i :: 0 <= i < |own| ==> !Makes(own[i], rx, n)
  {
    hide JoinOne;
    if own != [] {
      var k := |own| - 1;
      var front := own[..k];
      FirstIsFirst(front, rx, n);
      assert forall j :: 0 <= j < k ==> front[j] == own[j];
      var before := JoinInOrder(front, rx);
      if JoinOne(own[k], rx).Some? {
        assert (before + [JoinOne(own[k], rx).value])[..|before|] == before;
      } else {
        assert before + [] == before;
      }
      forall b ensures FirstWithN(JoinInOrder(own, rx), n) == Some(b) <==> IsFirst(own, rx, n, b) {
        FirstMore(own, rx, n, b);
      }
    }
  }

  lemma FirstMore(own: seq<Sample>, rx: map<nat, Sample>, n: nat, b: Block)
    requires own != []
    ensures var (k, front) := (|own| - 1, own[..|own| - 1]);
            IsFirst(own, rx, n, b) == (
              || IsFirst(front, rx, n, b)
              || ((forall i :: 0 <= i < k ==> !Makes(own[i], rx, n)) && JoinOne(own[k], rx) == Some(b) && b.n == n))
  {
    var k, front := |own| - 1, own[..|own| - 1];
    assert forall j :: 0 <= j < k ==> front[j] == own[j];
    if IsFirst(front, rx, n, b) {
      var i :| 0 <= i < |front| && JoinOne(front[i], rx) == Some(b) && b.n == n
        && forall j :: 0 <= j < i ==> !Makes(front[j], rx, n);
      assert JoinOne(own[i], rx) == Some(b);
    }
  }

  /** Sample i is a half of b, the peer's sample the other. */
  predicate PairAt(own: seq<Sample>, i: nat, rx: Sample, b: Block) {
    i < |own| && IsBlockOf(own[i], b.n) && Joins(own[i], rx) && b == JoinedBlock(own[i], rx)
  }

  /** b joins the peer's last sample of its number with the first own sample of the
      number that can be joined with it. */
  ghost predicate IsJoined(own: seq<Sample>, rev: seq<Sample>, b: Block) {
    exists rx, i: nat :: IsLast(rev, b.n, rx) && PairAt(own, i, rx, b)
                      && forall j :: 0 <= j < i && IsBlockOf(own[j], b.n) ==> !Joins(own[j], rx)
  }

  /** The join is sorted with one entry per block, and its entries are exactly the
      peer's last sample of a block with the first own one it can be joined with. */
  lemma JoinPairsHalves(own: seq<Sample>, rev: seq<Sample>)
    ensures Ascending(Join(own, rev))
    ensures forall b :: b in Join(own, rev) <==> IsJoined(own, rev, b)
  {
    var rxs := RxByBlock(rev);
    SortDedupKeepsFirsts(JoinInOrder(own, rxs));
    forall b ensures b in Join(own, rev) <==> IsJoined(own, rev, b) {
      FirstIsFirst(own, rxs, b.n);
      FirstIsJoined(own, rev, b);
    }
  }

  lemma FirstIsJoined(own: seq<Sample>, rev: seq<Sample>, b: Block)
    ensures IsFirst(own, RxByBlock(rev), b.n, b) <==> IsJoined(own, rev, b)
  {
    var rxs := RxByBlock(rev);
    if b.n in rxs {
      RxIsLast(rev, b.n, rxs[b.n]);
    }
    if IsJoined(own, rev, b) {
      var rx, i: nat :| IsLast(rev, b.n, rx) && PairAt(own, i, rx, b)
        && forall j :: 0 <= j < i && IsBlockOf(own[j], b.n) ==> !Joins(own[j], rx);
      RxIsLast(rev, b.n, rx);
      assert JoinOne(own[i], rxs) == Some(b);
    }
    if IsFirst(own, rxs, b.n, b) {
      var i :| 0 <= i < |own| && JoinOne(own[i], rxs) == Some(b)
        && forall j :: 0 <= j < i ==> !Makes(own[j], rxs, b.n);
      assert PairAt(own, i, rxs[b.n], b);
      forall j | 0 <= j < i && IsBlockOf(own[j], b.n) ensures !Joins(own[j], rxs[b.n]) {
        assert !Makes(own[j], rxs, b.n);
      }
    }
  }

  /** The first bit of the flags, a reset, is not set. */
  predicate Clear(x: Sample) { Flags in x.mark ==> x.mark[Flags] % 2 == 0 }

  /** The second bit, a test, is. */
  predicate Tested(x: Sample) { Flags in x.mark && x.mark[Flags] % 4 >= 2 }

  /** The two samples are halves of b, counter by counter. */
  predicate Halves(tx: Sample, rx: Sample, b: Block) {
    && BlockN in tx.mark && tx.mark[BlockN] == b.n && BlockN in rx.mark && rx.mark[BlockN] == b.n
    && Secs in tx.mark && tx.mark[Secs] == b.secs && Secs in rx.mark && rx.mark[Secs] == b.secs
    && Clear(tx) && Clear(rx)
    && TxS in tx.mark && tx.mark[TxS] == b.sentS && RxS in rx.mark && rx.mark[RxS] == b.recvS
    && TxL in tx.mark && tx.mark[TxL] == b.sentL && RxL in rx.mark && rx.mark[RxL] == b.recvL
    && TxBytes in tx.mark && tx.mark[TxBytes] == b.bytes && tx.ts == b.ts
    && (b.underTest <==> Tested(tx) || Tested(rx))
  }

  lemma FlagBits(x: Sample)
    ensures x.Flag(MARK_RESET) <==> !Clear(x)
    ensures x.Flag(MARK_UNDER_TEST) <==> Tested(x)
  {
  }

  lemma HalvesJoin(tx: Sample, rx: Sample, b: Block)
    ensures Halves(tx, rx, b) <==>
              IsBlockOf(tx, b.n) && IsBlockOf(rx, b.n) && Joins(tx, rx) && b == JoinedBlock(tx, rx)
  {
    FlagBits(tx);
    FlagBits(rx);
    hide Sample.Flag, Clear, Tested;
  }

  /** No earlier own sample makes halves of the block with the peer's. */
  ghost predicate FirstHalf(own: seq<Sample>, i: nat, rx: Sample, n: nat)
    requires i <= |own|
  {
    forall j, c: Block :: 0 <= j < i && c.n == n ==> !Halves(own[j], rx, c)
  }

  lemma FirstHalfJoins(own: seq<Sample>, i: nat, rx: Sample, n: nat)
    requires i <= |own| && IsBlockOf(rx, n)
    ensures FirstHalf(own, i, rx, n) <==> forall j :: 0 <= j < i && IsBlockOf(own[j], n) ==> !Joins(own[j], rx)
  {
    hide Joins, Halves;
    forall j, c: Block | 0 <= j < i && c.n == n
      ensures Halves(own[j], rx, c) <==> IsBlockOf(own[j], n) && Joins(own[j], rx) && c == JoinedBlock(own[j], rx)
    {
      HalvesJoin(own[j], rx, c);
    }
    assert forall j :: 0 <= j < i && IsBlockOf(own[j], n) && Joins(own[j], rx) ==>
        Halves(own[j], rx, JoinedBlock(own[j], rx));
  }

  /** The entry is made of the peer's last sample of its number and the first own one that
      makes halves of a block with it. */
  ghost predicate MadeOfHalves(own: seq<Sample>, rev: seq<Sample>, b: Block) {
    exists rx, i: nat :: IsLast(rev, b.n, rx) && i < |own| && Halves(own[i], rx, b) && FirstHalf(own, i, rx, b.n)
  }

  /** What the join holds, told counter by counter. */
  lemma JoinTellsHalves(own: seq<Sample>, rev: seq<Sample>, b: Block)
    ensures b in Join(own, rev) <==> MadeOfHalves(own, rev, b)
  {
    hide Join, Joins, Halves, JoinedBlock, FirstHalf;
    JoinPairsHalves(own, rev);
    if b in Join(own, rev) {
      var rx, i: nat :| IsLast(rev, b.n, rx) && PairAt(own, i, rx, b)
        && forall j :: 0 <= j < i && IsBlockOf(own[j], b.n) ==> !Joins(own[j], rx);
      HalvesJoin(own[i], rx, b);
      FirstHalfJoins(own, i, rx, b.n);
    }
    if MadeOfHalves(own, rev, b) {
      var rx, i: nat :| IsLast(rev, b.n, rx) && i < |own| && Halves(own[i], rx, b) && FirstHalf(own, i, rx, b.n);
      HalvesJoin(own[i], rx, b);
      FirstHalfJoins(own, i, rx, b.n);
      assert PairAt(own, i, rx, b);
    }
  }

  /** So every entry is two samples of one block, one from each end, that join. */
  lemma JoinedHalves(own: seq<Sample>, rev: seq<Sample>, b: Block) returns (tx: Sample, rx: Sample)
    requires b in Join(own, rev)
    ensures tx in own && rx in rev && IsBlockOf(tx, b.n) && IsBlockOf(rx, b.n)
    ensures Joins(tx, rx) && b == JoinedBlock(tx, rx)
  {
    JoinPairsHalves(own, rev);
    var i: nat;
    rx, i :| IsLast(rev, b.n, rx) && PairAt(own, i, rx, b)
      && forall j :: 0 <= j < i && IsBlockOf(own[j], b.n) ==> !Joins(own[j], rx);
    tx := own[i];
  }

  /** A block of which the peer has a sample has a last one. */
  lemma LastOf(rev: seq<Sample>, y: Sample, n: nat) returns (rx: Sample)
    requires y in rev && IsBlockOf(y, n)
    ensures rx in rev && IsBlockOf(rx, n) && IsLast(rev, n, rx)
    decreases |rev|
  {
    var k := |rev| - 1;
    if IsBlockOf(rev[k], n) {
      rx := rev[k];
    } else {
      assert rev == rev[..k] + [rev[k]];
      rx := LastOf(rev[..k], y, n);
    }
    LastMore(rev, n, rx);
  }

  /** An own sample that can be joined with the peer's last gives the block an entry. */
  lemma JoinHas(own: seq<Sample>, rev: seq<Sample>, x: Sample, rx: Sample, n: nat) returns (b: Block)
    requires x in own && IsBlockOf(x, n) && IsLast(rev, n, rx) && Joins(x, rx)
    ensures b in Join(own, rev) && b.n == n
  {
    hide Joins, IsLast, JoinInOrder, FirstWithN, SortDedup;
    var rxs := RxByBlock(rev);
    RxIsLast(rev, n, rx);
    var i :| 0 <= i < |own| && own[i] == x;
    assert Makes(own[i], rxs, n);
    FirstIsFirst(own, rxs, n);
    SortDedupKeepsFirsts(JoinInOrder(own, rxs));
    b := FirstWithN(JoinInOrder(own, rxs), n).value;
  }

  // ── The loss window ──────────────────────────────────────────────────────

  datatype MarkCfg = MarkCfg(tcpFreshSecs: nat, windowSecs: nat, recoverSecs: nat, minPkts: nat)

  datatype Regime = Clean | Sparse | Bursty | SizeSelective | UnderTest

  /** A loss ratio: absent below the floor, or the 0 / 0 of blocks that sent nothing,
      which only a floor of zero lets through and no comparison holds of. */
  datatype Ratio = Unmeasured | Undefined | Measured(pct: real)

  datatype Summary = Summary(
    lossPct: Ratio, lossSPct: Ratio, lossLPct: Ratio,
    rateMbps: Option<real>, rateTs: Option<nat>, regime: Option<Regime>, blocks: nat,
    sentS: nat, sentL: nat, lostS: nat, lostL: nat)

  /** Seconds since the block's end, 0 while it has not ended. */
  function Age(b: Block, now: nat): nat { SatSub(now, b.ts + b.secs) }

  /** The blocks outside any test whose age is within `span`. */
  function Within(blocks: seq<Block>, span: nat, now: nat): seq<Block> {
    if blocks == [] then []
    else
      var b := blocks[|blocks| - 1];
      Within(blocks[..|blocks| - 1], span, now) + if !b.underTest && Age(b, now) <= span then [b] else []
  }

  /** Packets sent and lost per band over some blocks. */
  datatype Totals = Totals(sentS: nat, sentL: nat, lostS: nat, lostL: nat)
  {
    function Sent(): nat { sentS + sentL }
    function Lost(): nat { lostS + lostL }
  }

  function TotalsOf(bs: seq<Block>): Totals {
    if bs == [] then Totals(0, 0, 0, 0)
    else
      var t, b := TotalsOf(bs[..|bs| - 1]), bs[|bs| - 1];
      Totals(t.sentS + b.sentS, t.sentL + b.sentL, t.lostS + b.LostS(), t.lostL + b.LostL())
  }

  predicate AnyLoss(bs: seq<Block>) { exists i :: 0 <= i < |bs| && bs[i].Lost() > 0 }

  predicate AnyUnderTest(bs: seq<Block>, span: nat, now: nat) {
    exists i :: 0 <= i < |bs| && bs[i].underTest && Age(bs[i], now) <= span
  }

  /** The blocks the loss is taken over: the fast window when it is lossy and large
      enough to measure on its own, else the whole recovery span. */
  function LossWindow(blocks: seq<Block>, cfg: MarkCfg, now: nat): seq<Block> {
    var recent := Within(blocks, cfg.recoverSecs, now);
    var fast := Within(recent, cfg.windowSecs, now);
    if AnyLoss(fast) && TotalsOf(fast).Sent() >= cfg.minPkts then fast else recent
  }

  function RatioOf(part: nat, whole: nat, floor: nat): Ratio {
    if whole < floor then Unmeasured else if whole == 0 then Undefined else Measured(Pct(part, whole))
  }

  // ── The loss shape ───────────────────────────────────────────────────────

  /** Per-block loss of the blocks that sent something. */
  function Losses(bs: seq<Block>): seq<real> {
    if bs == [] then []
    else
      var b := bs[|bs| - 1];
      Losses(bs[..|bs| - 1]) + if b.Sent() > 0 then [Pct(b.Lost(), b.Sent())] else []
  }

  function Lossy(ps: seq<real>): nat {
    if ps == [] then 0 else Lossy(ps[..|ps| - 1]) + if ps[|ps| - 1] > 0.0 then 1 else 0
  }

  function SumReal(ps: seq<real>): real {
    if ps == [] then 0.0 else SumReal(ps[..|ps| - 1]) + ps[|ps| - 1]
  }

  function MaxOf(ps: seq<real>): real {
    if ps == [] then 0.0 else MaxReal(MaxOf(ps[..|ps| - 1]), ps[|ps| - 1])
  }

  function Mean(sum: real, n: nat): real { sum / Max(n, 1) as real }

  function ShapeOf(ps: seq<real>): Regime {
    if Lossy(ps) * 2 > |ps| && MaxOf(ps) <= 3.0 * Mean(SumReal(ps), |ps|) then Sparse else Bursty
  }

  /** The large band loses at least five times what the small one does. */
  predicate LargeStandsOut(lossS: Ratio, lossL: Ratio) {
    lossS.Measured? && lossL.Measured? && lossL.pct > 0.0 && lossL.pct >= 5.0 * lossS.pct
  }

  function RegimeOf(window: seq<Block>, lossS: Ratio, lossL: Ratio): Regime {
    if TotalsOf(window).Lost() == 0 then Clean
    else if LargeStandsOut(lossS, lossL) then SizeSelective
    else ShapeOf(Losses(window))
  }

  /** `peak` is the highest rate of the blocks within `span` with the start of the
      first block that reached it, or None without such a block. */
  ghost predicate IsPeak(blocks: seq<Block>, span: nat, now: nat, peak: Option<(real, nat)>) {
    && (peak.Some? <==> exists i :: 0 <= i < |blocks| && Age(blocks[i], now) <= span)
    && (peak.Some? ==>
          && (forall j :: 0 <= j < |blocks| && Age(blocks[j], now) <= span ==> blocks[j].RateMbps() <= peak.value.0)
          && (exists i :: 0 <= i < |blocks| && Age(blocks[i], now) <= span
                && peak.value == (blocks[i].RateMbps(), blocks[i].ts)
                && forall j :: 0 <= j < i && Age(blocks[j], now) <= span ==> blocks[j].RateMbps() < peak.value.0))
  }

  method PeakRate(blocks: seq<Block>, span: nat, now: nat) returns (peak: Option<(real, nat)>)
    ensures IsPeak(blocks, span, now, peak)
  {
    peak := None;
    ghost var at := 0;
    for k := 0 to |blocks|
      invariant forall j :: 0 <= j < k && Age(blocks[j], now) <= span ==>
                  peak.Some? && blocks[j].RateMbps() <= peak.value.0
      invariant peak.Some? ==>
        && 0 <= at < k && Age(blocks[at], now) <= span
        && peak.value == (blocks[at].RateMbps(), blocks[at].ts)
        && forall j :: 0 <= j < at && Age(blocks[j], now) <= span ==> blocks[j].RateMbps() < peak.value.0
    {
      var b := blocks[k];
      if Age(b, now) <= span && (peak.None? || b.RateMbps() > peak.value.0) {
        peak := Some((b.RateMbps(), b.ts));
        at := k;
      }
    }
  }

  method SumTotals(window: seq<Block>) returns (t: Totals)
    ensures t == TotalsOf(window)
  {
    t := Totals(0, 0, 0, 0);
    for k := 0 to |window|
      invariant t == TotalsOf(window[..k])
    {
      assert window[..k + 1][..k] == window[..k];
      var b := window[k];
      t := Totals(t.sentS + b.sentS, t.sentL + b.sentL, t.lostS + b.LostS(), t.lostL + b.LostL());
    }
    assert window[..|window|] == window;
  }

  /** Summarise the joined blocks at `now`. */
  method Summarize(blocks: seq<Block>, cfg: MarkCfg, now: nat) returns (out: Summary)
    ensures out.rateMbps.Some? <==> out.rateTs.Some?
    ensures IsPeak(blocks, cfg.tcpFreshSecs, now,
                   if out.rateMbps.Some? then Some((out.rateMbps.value, out.rateTs.value)) else None)
    ensures SummaryOfLoss(out, blocks, cfg, now)
  {
    hide RegimeOf, LossWindow, RatioOf, Age, TotalsOf, IsPeak;
    var peak := PeakRate(blocks, cfg.tcpFreshSecs, now);
    var rate := if peak.Some? then Some(peak.value.0) else None;
    var ts := if peak.Some? then Some(peak.value.1) else None;
    var window := LossWindow(blocks, cfg, now);
    var t := SumTotals(window);
    if window == [] {
      var underTest := AnyUnderTest(blocks, cfg.windowSecs, now);
      out := Summary(Unmeasured, Unmeasured, Unmeasured, rate, ts, if underTest then Some(UnderTest) else None,
                     0, 0, 0, 0, 0);
      NothingSent();
    } else {
      var lossS := RatioOf(t.lostS, t.sentS, cfg.minPkts);
      var lossL := RatioOf(t.lostL, t.sentL, cfg.minPkts);
      out := Summary(RatioOf(t.Lost(), t.Sent(), cfg.minPkts), lossS, lossL, rate, ts,
                     Some(RegimeOf(window, lossS, lossL)), |window|, t.sentS, t.sentL, t.lostS, t.lostL);
    }
  }

  lemma NothingSent()
    ensures TotalsOf([]) == Totals(0, 0, 0, 0)
  {
  }

  /** The loss part of a summary, over the window the source selects. */
  ghost predicate SummaryOfLoss(out: Summary, blocks: seq<Block>, cfg: MarkCfg, now: nat) {
    var w := LossWindow(blocks, cfg, now);
    var t := TotalsOf(w);
    && out.blocks == |w|
    && Totals(out.sentS, out.sentL, out.lostS, out.lostL) == t
    && out.lossPct == (if w == [] then Unmeasured else RatioOf(t.Lost(), t.Sent(), cfg.minPkts))
    && out.lossSPct == (if w == [] then Unmeasured else RatioOf(t.lostS, t.sentS, cfg.minPkts))
    && out.lossLPct == (if w == [] then Unmeasured else RatioOf(t.lostL, t.sentL, cfg.minPkts))
    && out.regime ==
       if w != [] then Some(RegimeOf(w, out.lossSPct, out.lossLPct))
       else if AnyUnderTest(blocks, cfg.windowSecs, now) then Some(UnderTest)
       else None
  }

  lemma {:induction false} LostAtMostSent(bs: seq<Block>)
    ensures TotalsOf(bs).lostS <= TotalsOf(bs).sentS && TotalsOf(bs).lostL <= TotalsOf(bs).sentL
  {
    if bs != [] {
      LostAtMostSent(bs[..|bs| - 1]);
    }
  }

  lemma AnyLossSplits(bs: seq<Block>)
    requires bs != []
    ensures AnyLoss(bs) <==> AnyLoss(bs[..|bs| - 1]) || bs[|bs| - 1].Lost() > 0
  {
  }

  lemma {:induction false} LossIsInTotals(bs: seq<Block>)
    ensures TotalsOf(bs).Lost() > 0 <==> AnyLoss(bs)
  {
    hide AnyLoss;
    if bs != [] {
      LossIsInTotals(bs[..|bs| - 1]);
      AnyLossSplits(bs);
    } else {
      NoBlocksNoLoss();
    }
  }

  lemma NoBlocksNoLoss()
    ensures !AnyLoss([])
  {
  }

  lemma {:induction false} WithinIsFilter(blocks: seq<Block>, span: nat, now: nat)
    ensures forall b :: b in Within(blocks, span, now) <==> b in blocks && !b.underTest && Age(b, now) <= span
  {
    if blocks != [] {
      var init, b := blocks[..|blocks| - 1], blocks[|blocks| - 1];
      WithinIsFilter(init, span, now);
      assert blocks == init + [b];
    }
  }

  lemma PctBounds(part: nat, whole: nat)
    requires 0 < part <= whole
    ensures 0.0 < Pct(part, whole) <= 100.0
  {
  }

  /** Loss is never forgotten early: while a lossy non-test block is within the
      recovery span and the span carries enough packets, the reported loss is above
      0 (and never above 100 %). So it reads 0 only once the last lossy block has
      aged out. */
  lemma LossIsReportedUntilItAgesOut(blocks: seq<Block>, cfg: MarkCfg, now: nat, out: Summary)
    requires SummaryOfLoss(out, blocks, cfg, now)
    requires TotalsOf(Within(blocks, cfg.recoverSecs, now)).Sent() >= Max(cfg.minPkts, 1)
    ensures out.lossPct.Measured?
    ensures (exists b :: b in blocks && !b.underTest && Age(b, now) <= cfg.recoverSecs && b.Lost() > 0)
            <==> out.lossPct.pct > 0.0
    ensures 0.0 <= out.lossPct.pct <= 100.0
  {
    hide RegimeOf, TotalsOf, Within, Age;
    var recent := Within(blocks, cfg.recoverSecs, now);
    var fast := Within(recent, cfg.windowSecs, now);
    var w := LossWindow(blocks, cfg, now);
    WithinIsFilter(blocks, cfg.recoverSecs, now);
    WithinIsFilter(recent, cfg.windowSecs, now);
    LossIsInTotals(w);
    LostAtMostSent(w);
    NothingSent();
    assert AnyLoss(w) <==> AnyLoss(recent) by {
      if AnyLoss(w) && w == fast {
        var i :| 0 <= i < |fast| && fast[i].Lost() > 0;
        assert fast[i] in recent;
      }
    }
    if TotalsOf(w).Lost() > 0 {
      PctBounds(TotalsOf(w).Lost(), TotalsOf(w).Sent());
      var i :| 0 <= i < |recent| && recent[i].Lost() > 0;
      assert recent[i] in recent;
    }
  }

  /** The ratio is the loss of just these packets. */
  predicate Tells(r: Ratio, t: Totals) { t.Sent() > 0 && r == Measured(Pct(t.Lost(), t.Sent())) }

  /** Demotion is fast: a lossy fast window that can measure on its own is reported
      as exactly its own ratio, whatever the older blocks say. Recovery is slow:
      otherwise the loss is that of the whole recovery span, and below the floor it
      is unmeasured, never 0. */
  lemma FastDemotionSlowRecovery(blocks: seq<Block>, cfg: MarkCfg, now: nat, out: Summary)
    requires SummaryOfLoss(out, blocks, cfg, now)
    ensures var recent := TotalsOf(Within(blocks, cfg.recoverSecs, now));
            var fast := TotalsOf(Within(Within(blocks, cfg.recoverSecs, now), cfg.windowSecs, now));
            if fast.Lost() > 0 && fast.Sent() >= cfg.minPkts then Tells(out.lossPct, fast)
            else if recent.Sent() >= Max(cfg.minPkts, 1) then Tells(out.lossPct, recent)
            else !out.lossPct.Measured? && (cfg.minPkts > 0 ==> out.lossPct == Unmeasured)
  {
    hide RegimeOf, TotalsOf, Within, AnyLoss, RatioOf, Tells;
    var recent := Within(blocks, cfg.recoverSecs, now);
    var fast := Within(recent, cfg.windowSecs, now);
    LossIsInTotals(fast);
    LostAtMostSent(fast);
    NothingSent();
    RatioTells(TotalsOf(fast), cfg.minPkts);
    RatioTells(TotalsOf(recent), cfg.minPkts);
  }

  lemma RatioTells(t: Totals, floor: nat)
    ensures var r := RatioOf(t.Lost(), t.Sent(), floor);
            if t.Sent() >= Max(floor, 1) then Tells(r, t) else !r.Measured? && (floor > 0 ==> r == Unmeasured)
  {
    hide Pct;
  }

  // ── Shapes ───────────────────────────────────────────────────────────────

  lemma {:induction false} ConstantLosses(ps: seq<real>, p: real)
    requires p > 0.0 && forall i :: 0 <= i < |ps| ==> ps[i] == p
    ensures Lossy(ps) == |ps| && SumReal(ps) == |ps| as real * p
    ensures |ps| > 0 ==> MaxOf(ps) == p
  {
    if ps != [] {
      ConstantLosses(ps[..|ps| - 1], p);
    }
  }

  /** Loss spread at one steady rate over every block is `sparse`, unless the large
      band stands out. */
  lemma SteadyLossIsSparse(window: seq<Block>, lossS: Ratio, lossL: Ratio, p: real)
    requires TotalsOf(window).Lost() > 0
    requires !LargeStandsOut(lossS, lossL)
    requires Losses(window) != [] && p > 0.0
    requires forall i :: 0 <= i < |Losses(window)| ==> Losses(window)[i] == p
    ensures RegimeOf(window, lossS, lossL) == Sparse
  {
    ConstantIsSparse(Losses(window), p);
    hide Losses, TotalsOf, ShapeOf;
  }

  lemma ConstantIsSparse(ps: seq<real>, p: real)
    requires ps != [] && p > 0.0 && forall i :: 0 <= i < |ps| ==> ps[i] == p
    ensures ShapeOf(ps) == Sparse
  {
    ConstantLosses(ps, p);
    MeanOfConstant(|ps|, p);
    hide Lossy, SumReal, MaxOf, Mean;
  }

  lemma MeanOfConstant(n: nat, p: real)
    requires n > 0
    ensures Mean(n as real * p, n) == p
  {
  }

  lemma {:induction false} OneNonzero(ps: seq<real>, at: nat)
    requires at < |ps| && ps[at] > 0.0 && forall i :: 0 <= i < |ps| && i != at ==> ps[i] == 0.0
    ensures Lossy(ps) == 1 && SumReal(ps) == ps[at] && MaxOf(ps) == ps[at]
  {
    var init := ps[..|ps| - 1];
    if at == |ps| - 1 {
      AllZero(init);
    } else {
      OneNonzero(init, at);
    }
  }

  lemma {:induction false} AllZero(ps: seq<real>)
    requires forall i :: 0 <= i < |ps| ==> ps[i] == 0.0
    ensures Lossy(ps) == 0 && SumReal(ps) == 0.0 && MaxOf(ps) == 0.0
  {
    if ps != [] {
      AllZero(ps[..|ps| - 1]);
    }
  }

  /** Loss confined to one block of several is `bursty`: at least two blocks, the
      rest clean. */
  lemma LoneBurstIsBursty(window: seq<Block>, lossS: Ratio, lossL: Ratio, at: nat)
    requires TotalsOf(window).Lost() > 0
    requires !LargeStandsOut(lossS, lossL)
    requires |Losses(window)| >= 2 && at < |Losses(window)| && Losses(window)[at] > 0.0
    requires forall i :: 0 <= i < |Losses(window)| && i != at ==> Losses(window)[i] == 0.0
    ensures RegimeOf(window, lossS, lossL) == Bursty
  {
    OneNonzero(Losses(window), at);
  }
}
