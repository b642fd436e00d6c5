/** One ingested measurement (crates/controller/src/tsdb.rs, `RawSample`). The
    struct's optional fields are the entries of two maps: a field is set exactly
    when its key is present. */
module Samples {
  import opened Core
  import opened AgentMark

  /** The real-valued dimensions. */
  datatype Dim = Rtt | Loss | Jitter | Tcp | Udp | UdpJitter | UdpLoss | MarkLoss | MarkRate

  /** The alternate-marking counters of a block sample. */
  datatype MarkDim = BlockN | Secs | TxS | TxL | RxS | RxL | TxBytes | RxBytes | Flags

  /** `state` is 0 quiet, 1 busy, 2 conflict. */
  datatype Sample = Sample(ts: nat, dims: map<Dim, real>, mark: map<MarkDim, nat>, util: real, state: nat)
  {
    predicate IsBlock() { BlockN in mark }

    /** A dimension `is_probe` tests is set. UDP jitter is not among them. */
    predicate HasProbeDim() {
      Rtt in dims || Loss in dims || Jitter in dims || Tcp in dims || Udp in dims || UdpLoss in dims
    }

    predicate IsProbe() { HasProbeDim() || (BlockN !in mark && MarkLoss !in dims) }

    predicate Flag(bit: nat)
      requires bit > 0
    {
      Flags in mark && (mark[Flags] / bit) % 2 == 1
    }
  }

  const MARK_RESET: nat := 1
  const MARK_UNDER_TEST: nat := 2

  function MaxReal(a: real, b: real): real { if a >= b then a else b }

  function MinReal(a: real, b: real): real { if a <= b then a else b }

  /** What is no probe: a block's report or result with nothing measured besides but,
      at most, UDP jitter. */
  lemma NoProbeIsMarkingOnly(s: Sample)
    ensures !s.IsProbe() <==>
              (BlockN in s.mark || MarkLoss in s.dims) && s.dims.Keys <= {UdpJitter, MarkLoss, MarkRate}
  {
    if !s.IsProbe() {
      forall d | d in s.dims.Keys ensures d in {UdpJitter, MarkLoss, MarkRate} {
        match d {
          case Rtt => case Loss => case Jitter => case Tcp => case Udp => case UdpLoss =>
          case UdpJitter => case MarkLoss => case MarkRate =>
        }
      }
    }
  }

  /** Fold a same-second sample in: what `o` measured replaces ours, utilisation
      and state take the larger. */
  function MergedWith(s: Sample, o: Sample): Sample {
    Sample(s.ts, s.dims + o.dims, s.mark + o.mark, MaxReal(s.util, o.util), Max(s.state, o.state))
  }

  /** The later sample's measurements win over ours; use and state never fall. */
  lemma MergeTells(s: Sample, o: Sample)
    ensures var m := MergedWith(s, o);
            && m.ts == s.ts
            && (forall d :: d in m.dims <==> d in s.dims || d in o.dims)
            && (forall d :: d in m.dims ==> m.dims[d] == if d in o.dims then o.dims[d] else s.dims[d])
            && (forall d :: d in m.mark <==> d in s.mark || d in o.mark)
            && (forall d :: d in m.mark ==> m.mark[d] == if d in o.mark then o.mark[d] else s.mark[d])
            && (m.util == s.util || m.util == o.util) && m.util >= s.util && m.util >= o.util
            && (m.state == s.state || m.state == o.state) && m.state >= s.state && m.state >= o.state
  {
  }

  function Clamp(v: nat): nat { Min(v, U32_MAX) }

  /** A block sample, stamped at the block's start. */
  function FromBlock(b: MarkBlock): Option<Sample> {
    if b.secs == 0 then None
    else Some(Sample(b.n * b.secs, map[],
                     map[BlockN := b.n, Secs := b.secs,
                         TxS := Clamp(b.txS), TxL := Clamp(b.txL), RxS := Clamp(b.rxS), RxL := Clamp(b.rxL),
                         TxBytes := b.txBytes, RxBytes := b.rxBytes,
                         Flags := (if b.reset then MARK_RESET else 0) + (if b.underTest then MARK_UNDER_TEST else 0)],
                     0.0, 0))
  }
}
