/** What a loss summary says (crates/controller/src/mark.rs, `summarize` and `regime`), told
    from the joined blocks one by one: when each ended, what it sent and what it lost. */
module Summaries {
  import opened Core
  import opened Samples
  import opened ControllerMark

  // ── The blocks that count ────────────────────────────────────────────────

  /** The block ended no longer ago than the span. */
  predicate EndsWithin(b: Block, span: nat, now: nat) { now <= b.ts + b.secs + span }

  /** No test ran, and the block is of the recovery span, or of the fast window in it. */
  predicate Counts(b: Block, cfg: MarkCfg, now: nat, fast: bool) {
    !b.underTest && EndsWithin(b, cfg.recoverSecs, now) && (fast ==> EndsWithin(b, cfg.windowSecs, now))
  }

  datatype What = Blocks | SentSmall | SentLarge | LostSmall | LostLarge | Sending | Losing

  function Of(b: Block, what: What): nat {
    match what
    case Blocks => 1
    case SentSmall => b.sentS
    case SentLarge => b.sentL
    case LostSmall => if b.recvS < b.sentS then b.sentS - b.recvS else 0
    case LostLarge => if b.recvL < b.sentL then b.sentL - b.recvL else 0
    case Sending => if b.sentS + b.sentL > 0 then 1 else 0
    case Losing => if b.recvS < b.sentS || b.recvL < b.sentL then 1 else 0
  }

  function Tally(blocks: seq<Block>, cfg: MarkCfg, now: nat, fast: bool, what: What): nat
    decreases |blocks|
  {
    if blocks == [] then 0
    else
      var b := blocks[|blocks| - 1];
      Tally(blocks[..|blocks| - 1], cfg, now, fast, what) + if Counts(b, cfg, now, fast) then Of(b, what) else 0
  }

  function Sent(blocks: seq<Block>, cfg: MarkCfg, now: nat, fast: bool): nat {
    Tally(blocks, cfg, now, fast, SentSmall) + Tally(blocks, cfg, now, fast, SentLarge)
  }

  function Lost(blocks: seq<Block>, cfg: MarkCfg, now: nat, fast: bool): nat {
    Tally(blocks, cfg, now, fast, LostSmall) + Tally(blocks, cfg, now, fast, LostLarge)
  }

  /** Loss is taken over the fast window when that lost something and sent enough. */
  predicate UsesFast(blocks: seq<Block>, cfg: MarkCfg, now: nat) {
    Lost(blocks, cfg, now, true) > 0 && Sent(blocks, cfg, now, true) >= cfg.minPkts
  }

  // ── Ratios and shape ─────────────────────────────────────────────────────

  /** The share lost, in percent, from a floor of packets on. */
  predicate IsRatio(r: Ratio, lost: nat, sent: nat, floor: nat) {
    match r
    case Unmeasured => sent < floor
    case Undefined => sent == 0 && floor == 0
    case Measured(pct) => sent >= floor && sent > 0 && pct * sent as real == 100.0 * lost as real
  }

  /** The loss of a block that sent something, in percent. */
  function BlockLoss(b: Block): real
    requires b.sentS + b.sentL > 0
  {
    100.0 * (Of(b, LostSmall) + Of(b, LostLarge)) as real / (b.sentS + b.sentL) as real
  }

  function SumOfLosses(blocks: seq<Block>, cfg: MarkCfg, now: nat, fast: bool): real
    decreases |blocks|
  {
    if blocks == [] then 0.0
    else
      var b := blocks[|blocks| - 1];
      SumOfLosses(blocks[..|blocks| - 1], cfg, now, fast)
      + if Counts(b, cfg, now, fast) && b.sentS + b.sentL > 0 then BlockLoss(b) else 0.0
  }

  /** Every block that counts and sent something lost at most the share. */
  predicate NoneAbove(blocks: seq<Block>, cfg: MarkCfg, now: nat, fast: bool, share: real) {
    forall i :: 0 <= i < |blocks| && Counts(blocks[i], cfg, now, fast) && blocks[i].sentS + blocks[i].sentL > 0 ==>
      BlockLoss(blocks[i]) <= share
  }

  /** More than half of the blocks that sent something lost something, and none lost
      more than three times their mean. */
  predicate IsSpread(blocks: seq<Block>, cfg: MarkCfg, now: nat, fast: bool) {
    var sending := Tally(blocks, cfg, now, fast, Sending);
    && 2 * Tally(blocks, cfg, now, fast, Losing) > sending
    && sending > 0
    && NoneAbove(blocks, cfg, now, fast, 3.0 * (SumOfLosses(blocks, cfg, now, fast) / sending as real))
  }

  /** Both bands are measured, and the large one lost at least five times the share. */
  predicate LargeLosesMost(small: Ratio, large: Ratio) {
    small.Measured? && large.Measured? && large.pct > 0.0 && large.pct >= 5.0 * small.pct
  }

  predicate IsRegime(out: Summary, blocks: seq<Block>, cfg: MarkCfg, now: nat, fast: bool) {
    if Tally(blocks, cfg, now, fast, Blocks) == 0 then
      if exists i :: 0 <= i < |blocks| && blocks[i].underTest && EndsWithin(blocks[i], cfg.windowSecs, now)
      then out.regime == Some(UnderTest) else out.regime == None
    else if Lost(blocks, cfg, now, fast) == 0 then out.regime == Some(Clean)
    else if LargeLosesMost(out.lossSPct, out.lossLPct) then out.regime == Some(SizeSelective)
    else if IsSpread(blocks, cfg, now, fast) then out.regime == Some(Sparse)
    else out.regime == Some(Bursty)
  }

  /** Everything a summary says about loss. */
  predicate TellsLoss(out: Summary, blocks: seq<Block>, cfg: MarkCfg, now: nat) {
    var fast := UsesFast(blocks, cfg, now);
    && out.blocks == Tally(blocks, cfg, now, fast, Blocks)
    && out.sentS == Tally(blocks, cfg, now, fast, SentSmall) && out.sentL == Tally(blocks, cfg, now, fast, SentLarge)
    && out.lostS == Tally(blocks, cfg, now, fast, LostSmall) && out.lostL == Tally(blocks, cfg, now, fast, LostLarge)
    && (out.blocks == 0 ==> out.lossPct == Unmeasured && out.lossSPct == Unmeasured && out.lossLPct == Unmeasured)
    && (out.blocks > 0 ==>
          && IsRatio(out.lossPct, out.lostS + out.lostL, out.sentS + out.sentL, cfg.minPkts)
          && IsRatio(out.lossSPct, out.lostS, out.sentS, cfg.minPkts)
          && IsRatio(out.lossLPct, out.lostL, out.sentL, cfg.minPkts))
    && IsRegime(out, blocks, cfg, now, fast)
  }

  // ── The window is the blocks that count ──────────────────────────────────

  function Taken(blocks: seq<Block>, cfg: MarkCfg, now: nat, fast: bool): seq<Block> {
    var recent := Within(blocks, cfg.recoverSecs, now);
    if fast then Within(recent, cfg.windowSecs, now) else recent
  }

  lemma TakenMore(blocks: seq<Block>, cfg: MarkCfg, now: nat, fast: bool)
    requires blocks != []
    ensures var b := blocks[|blocks| - 1];
            Taken(blocks, cfg, now, fast)
            == Taken(blocks[..|blocks| - 1], cfg, now, fast) + if Counts(b, cfg, now, fast) then [b] else []
  {
    var b := blocks[|blocks| - 1];
    var front := Within(blocks[..|blocks| - 1], cfg.recoverSecs, now);
    assert (front + [b])[..|front|] == front && front + [] == front;
    var fastFront := Within(front, cfg.windowSecs, now);
    assert fastFront + [] == fastFront;
  }

  lemma NoneAboveMore(blocks: seq<Block>, cfg: MarkCfg, now: nat, fast: bool, share: real)
    requires blocks != []
    ensures var b := blocks[|blocks| - 1];
            NoneAbove(blocks, cfg, now, fast, share)
            <==> NoneAbove(blocks[..|blocks| - 1], cfg, now, fast, share)
                 && (Counts(b, cfg, now, fast) && b.sentS + b.sentL > 0 ==> BlockLoss(b) <= share)
  {
    hide Counts, BlockLoss;
    assert forall i :: 0 <= i < |blocks| - 1 ==> blocks[..|blocks| - 1][i] == blocks[i];
  }

  lemma NothingTaken(cfg: MarkCfg, now: nat, fast: bool)
    ensures Taken([], cfg, now, fast) == [] && TotalsOf([]) == Totals(0, 0, 0, 0) && Losses([]) == []
  {
  }

  lemma TotalsMore(w: seq<Block>, b: Block)
    ensures var t := TotalsOf(w);
            TotalsOf(w + [b]) == Totals(t.sentS + Of(b, SentSmall), t.sentL + Of(b, SentLarge),
                                        t.lostS + Of(b, LostSmall), t.lostL + Of(b, LostLarge))
  {
    assert (w + [b])[..|w|] == w;
  }

  lemma {:induction false} TakenTallies(blocks: seq<Block>, cfg: MarkCfg, now: nat, fast: bool)
    ensures var w := Taken(blocks, cfg, now, fast);
            && |w| == Tally(blocks, cfg, now, fast, Blocks)
            && TotalsOf(w) == Totals(Tally(blocks, cfg, now, fast, SentSmall), Tally(blocks, cfg, now, fast, SentLarge),
                                     Tally(blocks, cfg, now, fast, LostSmall), Tally(blocks, cfg, now, fast, LostLarge))
    decreases |blocks|
  {
    hide Taken, Counts, TotalsOf;
    if blocks == [] {
      NothingTaken(cfg, now, fast);
    } else {
      var front, b := blocks[..|blocks| - 1], blocks[|blocks| - 1];
      TakenTallies(front, cfg, now, fast);
      TakenMore(blocks, cfg, now, fast);
      TotalsMore(Taken(front, cfg, now, fast), b);
      assert Taken(front, cfg, now, fast) + [] == Taken(front, cfg, now, fast);
    }
  }

  // ── The shape ────────────────────────────────────────────────────────────

  lemma LossesMore(w: seq<Block>, b: Block)
    ensures var sends := b.sentS + b.sentL > 0;
            && Losses(w + [b]) == Losses(w) + (if sends then [BlockLoss(b)] else [])
            && (sends ==> (BlockLoss(b) > 0.0 <==> Of(b, Losing) == 1) && BlockLoss(b) >= 0.0)
            && (!sends ==> Of(b, Losing) == 0)
  {
    assert (w + [b])[..|w|] == w;
    if b.Sent() > 0 {
      LossIsShare(b);
    }
  }

  lemma LossIsShare(b: Block)
    requires b.Sent() > 0
    ensures Pct(b.Lost(), b.Sent()) == BlockLoss(b) >= 0.0
    ensures BlockLoss(b) > 0.0 <==> b.Lost() > 0
  {
  }

  /** The middle of the shape is made of these counts. */
  predicate ShapeTallies(ps: seq<real>, blocks: seq<Block>, cfg: MarkCfg, now: nat, fast: bool) {
    && |ps| == Tally(blocks, cfg, now, fast, Sending)
    && Lossy(ps) == Tally(blocks, cfg, now, fast, Losing)
    && SumReal(ps) == SumOfLosses(blocks, cfg, now, fast)
    && MaxOf(ps) >= 0.0
  }

  lemma ShapeMore(ps: seq<real>, p: real)
    ensures Lossy(ps + [p]) == Lossy(ps) + (if p > 0.0 then 1 else 0)
    ensures SumReal(ps + [p]) == SumReal(ps) + p
    ensures MaxOf(ps + [p]) == MaxReal(MaxOf(ps), p)
  {
    assert (ps + [p])[..|ps|] == ps;
  }

  lemma {:induction false} TakenShape(blocks: seq<Block>, cfg: MarkCfg, now: nat, fast: bool)
    ensures ShapeTallies(Losses(Taken(blocks, cfg, now, fast)), blocks, cfg, now, fast)
    ensures forall share :: share >= 0.0 ==>
              (MaxOf(Losses(Taken(blocks, cfg, now, fast))) <= share <==> NoneAbove(blocks, cfg, now, fast, share))
    decreases |blocks|
  {
    hide Taken, Counts, Losses, BlockLoss, Lossy, SumReal, MaxOf, NoneAbove;
    if blocks == [] {
      NothingTaken(cfg, now, fast);
      NothingLost(cfg, now, fast);
    } else {
      var front, b := blocks[..|blocks| - 1], blocks[|blocks| - 1];
      var w := Taken(front, cfg, now, fast);
      TakenShape(front, cfg, now, fast);
      TakenMore(blocks, cfg, now, fast);
      LossesMore(w, b);
      forall share ensures NoneAbove(blocks, cfg, now, fast, share)
        <==> NoneAbove(front, cfg, now, fast, share)
             && (Counts(b, cfg, now, fast) && b.sentS + b.sentL > 0 ==> BlockLoss(b) <= share)
      {
        NoneAboveMore(blocks, cfg, now, fast, share);
      }
      assert w + [] == w && Losses(w) + [] == Losses(w);
      if Counts(b, cfg, now, fast) && b.sentS + b.sentL > 0 {
        ShapeMore(Losses(w), BlockLoss(b));
      }
    }
  }

  lemma NothingLost(cfg: MarkCfg, now: nat, fast: bool)
    ensures Lossy([]) == 0 && SumReal([]) == 0.0 && MaxOf([]) == 0.0
    ensures forall share :: NoneAbove([], cfg, now, fast, share)
  {
  }

  lemma {:induction false} SumIsNonNegative(blocks: seq<Block>, cfg: MarkCfg, now: nat, fast: bool)
    ensures SumOfLosses(blocks, cfg, now, fast) >= 0.0
    decreases |blocks|
  {
    hide Counts;
    if blocks != [] {
      SumIsNonNegative(blocks[..|blocks| - 1], cfg, now, fast);
    }
  }

  /** Sparse is exactly loss spread over the blocks. */
  lemma SparseIsSpread(blocks: seq<Block>, cfg: MarkCfg, now: nat, fast: bool)
    ensures ShapeOf(Losses(Taken(blocks, cfg, now, fast)))
         == if IsSpread(blocks, cfg, now, fast) then Sparse else Bursty
  {
    hide Taken, Losses, BlockLoss, Lossy, SumReal, MaxOf, NoneAbove, Tally, SumOfLosses;
    TakenShape(blocks, cfg, now, fast);
    SumIsNonNegative(blocks, cfg, now, fast);
    LosingSends(blocks, cfg, now, fast);
  }

  lemma {:induction false} LosingSends(blocks: seq<Block>, cfg: MarkCfg, now: nat, fast: bool)
    ensures Tally(blocks, cfg, now, fast, Losing) <= Tally(blocks, cfg, now, fast, Sending)
    decreases |blocks|
  {
    hide Counts;
    if blocks != [] {
      LosingSends(blocks[..|blocks| - 1], cfg, now, fast);
    }
  }

  // ── The summary ──────────────────────────────────────────────────────────

  lemma WindowIsTaken(blocks: seq<Block>, cfg: MarkCfg, now: nat)
    ensures LossWindow(blocks, cfg, now) == Taken(blocks, cfg, now, UsesFast(blocks, cfg, now))
  {
    hide Tally, TotalsOf, Within, AnyLoss;
    TakenTallies(blocks, cfg, now, true);
    LossIsInTotals(Taken(blocks, cfg, now, true));
  }

  lemma RatioIsShare(lost: nat, sent: nat, floor: nat)
    ensures IsRatio(RatioOf(lost, sent, floor), lost, sent, floor)
  {
  }

  /** A summary tells the loss of exactly the blocks of its window, its ratios, and its
      shape. */
  lemma SummaryTellsLoss(out: Summary, blocks: seq<Block>, cfg: MarkCfg, now: nat)
    requires SummaryOfLoss(out, blocks, cfg, now)
    ensures TellsLoss(out, blocks, cfg, now)
  {
    hide Tally, TotalsOf, Losses, ShapeOf, RatioOf, IsRatio, IsSpread, LossWindow, UsesFast, Taken, Counts;
    var fast := UsesFast(blocks, cfg, now);
    WindowIsTaken(blocks, cfg, now);
    TakenTallies(blocks, cfg, now, fast);
    SparseIsSpread(blocks, cfg, now, fast);
    RatioIsShare(out.lostS + out.lostL, out.sentS + out.sentL, cfg.minPkts);
    RatioIsShare(out.lostS, out.sentS, cfg.minPkts);
    RatioIsShare(out.lostL, out.sentL, cfg.minPkts);
    AgeIsEnd(blocks, cfg.windowSecs, now);
  }

  lemma AgeIsEnd(blocks: seq<Block>, span: nat, now: nat)
    ensures AnyUnderTest(blocks, span, now)
       <==> exists i :: 0 <= i < |blocks| && blocks[i].underTest && EndsWithin(blocks[i], span, now)
  {
  }

  /** The peak rate is reached by the first of the blocks of the span that carried the
      most bytes for their length. */
  ghost predicate TellsRate(out: Summary, blocks: seq<Block>, span: nat, now: nat) {
    && (out.rateMbps.Some? <==> out.rateTs.Some?)
    && (out.rateMbps.Some? <==> exists i :: 0 <= i < |blocks| && EndsWithin(blocks[i], span, now))
    && (out.rateMbps.Some? ==>
          && (forall j :: 0 <= j < |blocks| && EndsWithin(blocks[j], span, now) ==>
                !Above(blocks[j], out.rateMbps.value))
          && exists i :: 0 <= i < |blocks| && EndsWithin(blocks[i], span, now)
               && !Above(blocks[i], out.rateMbps.value) && !Below(blocks[i], out.rateMbps.value)
               && out.rateTs.value == blocks[i].ts
               && forall j :: 0 <= j < i && EndsWithin(blocks[j], span, now) ==> Below(blocks[j], out.rateMbps.value))
  }

  /** A block carried more, or fewer, bits than the rate in Mbps makes of its length. */
  predicate Above(b: Block, rate: real) { (b.bytes * 8) as real > rate * 1000000.0 * Max(b.secs, 1) as real }
  predicate Below(b: Block, rate: real) { (b.bytes * 8) as real < rate * 1000000.0 * Max(b.secs, 1) as real }

  lemma RateIsBits(b: Block, rate: real)
    ensures Above(b, rate) <==> b.RateMbps() > rate
    ensures Below(b, rate) <==> b.RateMbps() < rate
  {
    var m := Max(b.secs, 1) as real * 1000000.0;
    assert b.RateMbps() * m == (b.bytes * 8) as real;
    OrderByProduct(b.RateMbps(), rate, m);
  }

  lemma OrderByProduct(a: real, b: real, m: real)
    requires m > 0.0
    ensures a * m > b * m <==> a > b
    ensures a * m < b * m <==> a < b
  {
  }

  lemma PeakTellsRate(out: Summary, blocks: seq<Block>, span: nat, now: nat)
    requires out.rateMbps.Some? <==> out.rateTs.Some?
    requires IsPeak(blocks, span, now,
                    if out.rateMbps.Some? then Some((out.rateMbps.value, out.rateTs.value)) else None)
    ensures TellsRate(out, blocks, span, now)
  {
    hide Above, Below, Block.RateMbps;
    forall b: Block, rate
      ensures (Above(b, rate) <==> b.RateMbps() > rate) && (Below(b, rate) <==> b.RateMbps() < rate)
    {
      RateIsBits(b, rate);
    }
    forall b: Block ensures Age(b, now) <= span <==> EndsWithin(b, span, now) {}
    hide Age, EndsWithin;
  }
}
