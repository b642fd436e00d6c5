/** The TCP rate a loss ratio supports (crates/controller/src/mark.rs,
    `implied_tcp_mbps`): the Mathis bound and the run length of RFC 8337, section
    5.2. Arithmetic is exact; a square root is given by its value. */
module RateModels {
  import opened Core

  datatype LossModel = Mathis | Mbm

  predicate IsRoot(root: real, x: real) { root > 0.0 && root * root == x }

  /** What the model takes the square root of. */
  function Radicand(model: LossModel, lossPct: real): real {
    match model
    case Mathis => lossPct / 100.0
    case Mbm => 3.0 * (lossPct / 100.0)
  }

  /** `floor(1 / sqrt(3p))`. */
  function MbmWindow(root: real): int
    requires root > 0.0
  {
    (1.0 / root).Floor
  }

  /** The Reno/cubic long-run bound, in bits per second. */
  function MathisBps(mssBits: real, rtt: real, root: real): real
    requires rtt > 0.0 && root > 0.0
  {
    ProductPositive(rtt, root);
    1.22 * mssBits / (rtt * root)
  }

  /** The rate of the largest window the loss still allows. */
  function MbmBps(mssBits: real, rtt: real, root: real): real
    requires rtt > 0.0 && root > 0.0
  {
    MbmWindow(root) as real * mssBits / rtt
  }

  function ImpliedMbps(lossPct: real, rttMs: real, model: LossModel, mssBytes: nat, root: real): Option<real>
    requires lossPct > 0.0 ==> IsRoot(root, Radicand(model, lossPct))
  {
    if lossPct <= 0.0 || rttMs <= 0.0 then None
    else
      var mssBits := (mssBytes * 8) as real;
      var bps := match model
        case Mathis => MathisBps(mssBits, rttMs / 1000.0, root)
        case Mbm => MbmBps(mssBits, rttMs / 1000.0, root);
      Some(bps / 1000000.0)
  }

  // ── Products, quotients and squares ──────────────────────────────────────

  lemma ProductPositive(a: real, b: real)
    requires a > 0.0 && b > 0.0
    ensures a * b > 0.0
  {
  }

  lemma MulMono(a: real, b: real, c: real)
    requires a <= b && c >= 0.0
    ensures a * c <= b * c
  {
  }

  lemma ProductMono(a: real, b: real, c: real, d: real)
    requires 0.0 < a <= b && 0.0 < c <= d
    ensures 0.0 < a * c <= b * d
  {
  }

  /** Dividing by more gives no more. */
  lemma DivAnti(a: real, b: real, c: real)
    requires 0.0 <= a && 0.0 < b <= c
    ensures a / c <= a / b
  {
  }

  lemma FractionMono(a1: real, a2: real, b1: real, b2: real)
    requires 0.0 <= a2 <= a1 && 0.0 < b1 <= b2
    ensures 0.0 <= a2 / b2 <= a1 / b1
  {
  }

  lemma SquareMono(a: real, b: real)
    requires a > b > 0.0
    ensures a * a > b * b
  {
  }

  /** Squares order like their positive roots. */
  lemma RootMono(r1: real, x1: real, r2: real, x2: real)
    requires IsRoot(r1, x1) && IsRoot(r2, x2) && x1 <= x2
    ensures r1 <= r2
  {
  }

  // ── The models ───────────────────────────────────────────────────────────

  /** The loss allows a window of w segments: 3 w^2 packets between losses. */
  predicate Allows(p: real, w: nat) { 3.0 * (w as real * w as real) * p <= 1.0 }

  /** The window is the largest w the loss still allows: 3 w^2 p <= 1 holds for a
      natural w exactly when w is at most it. */
  lemma MbmWindowIsLargest(p: real, root: real, w: nat)
    requires p > 0.0 && IsRoot(root, 3.0 * p)
    ensures MbmWindow(root) >= 0
    ensures Allows(p, w) <==> w <= MbmWindow(root)
  {
    var inv := 1.0 / root;
    assert inv * root == 1.0 && inv > 0.0;
    var x := w as real;
    var y := x * root;
    assert 3.0 * (x * x) * p == y * y by {
      assert y * y == (x * x) * (root * root);
    }
    assert w <= MbmWindow(root) <==> x <= inv;
    if x <= inv {
      MulMono(x, inv, root);
      assert 0.0 <= y <= 1.0;
      assert y * y <= 1.0;
    } else {
      assert y > 1.0 by {
        ProductPositive(x - inv, root);
        assert (x - inv) * root == y - 1.0;
      }
      SquareMono(y, 1.0);
    }
  }

  /** Segments of `mss` bytes, as bits. */
  function Bits(segments: nat, mssBytes: nat): nat { segments * mssBytes * 8 }

  lemma WindowPerTrip(w: int, mssBits: real, rtt: real)
    requires rtt > 0.0
    ensures w as real * mssBits / rtt / 1000000.0 * 1000000.0 * rtt == w as real * mssBits
  {
  }

  lemma BitsOf(w: nat, mssBytes: nat)
    ensures w as real * (mssBytes * 8) as real == Bits(w, mssBytes) as real
  {
    assert w as real * (mssBytes * 8) as real == (w * (mssBytes * 8)) as real;
  }

  /** The model-based rate, in Mbps, carries the bits of the largest window the loss
      allows, whole segments of `mss` bytes, across in each round trip. */
  lemma MbmCarriesAWindowATrip(lossPct: real, rttMs: real, mssBytes: nat, root: real, w: nat)
    requires lossPct > 0.0 && rttMs > 0.0 && IsRoot(root, 3.0 * (lossPct / 100.0))
    requires Allows(lossPct / 100.0, w) && !Allows(lossPct / 100.0, w + 1)
    ensures ImpliedMbps(lossPct, rttMs, Mbm, mssBytes, root).value * 1000000.0 * (rttMs / 1000.0)
         == Bits(w, mssBytes) as real
  {
    LargestIsWindow(lossPct / 100.0, root, w);
    WindowPerTrip(w, (mssBytes * 8) as real, rttMs / 1000.0);
    BitsOf(w, mssBytes);
    hide Bits, MbmWindow, IsRoot, Allows;
  }

  lemma LargestIsWindow(p: real, root: real, w: nat)
    requires p > 0.0 && IsRoot(root, 3.0 * p)
    requires Allows(p, w) && !Allows(p, w + 1)
    ensures MbmWindow(root) == w
  {
    MbmWindowIsLargest(p, root, w);
    MbmWindowIsLargest(p, root, w + 1);
    hide IsRoot, Allows, MbmWindow;
  }

  lemma MathisPerTrip(bits: real, rtt: real, root: real)
    requires rtt > 0.0 && root > 0.0
    ensures MathisBps(bits, rtt, root) / 1000000.0 * 1000000.0 * rtt * root == 1.22 * bits
  {
    ProductPositive(rtt, root);
    var bps := MathisBps(bits, rtt, root);
    assert bps * (rtt * root) == 1.22 * bits;
    assert bps / 1000000.0 * 1000000.0 == bps;
    assert bps * rtt * root == bps * (rtt * root);
  }

  /** The Mathis rate, in Mbps, carries 1.22 segments over the root of the loss across in
      each round trip. */
  lemma MathisCarriesASegmentOverTheRoot(lossPct: real, rttMs: real, mssBytes: nat, root: real)
    requires lossPct > 0.0 && rttMs > 0.0 && IsRoot(root, lossPct / 100.0)
    ensures ImpliedMbps(lossPct, rttMs, Mathis, mssBytes, root).value * 1000000.0 * (rttMs / 1000.0) * root
         == 1.22 * Bits(1, mssBytes) as real
  {
    MathisPerTrip((mssBytes * 8) as real, rttMs / 1000.0, root);
    hide MathisBps;
  }

  lemma WindowTimesRoot(s: real)
    requires s > 0.0
    ensures MbmWindow(s) >= 0 && MbmWindow(s) as real * s <= 1.0
  {
  }

  lemma BpsRatio(mssBits: real, rtt: real, r: real, s: real)
    requires mssBits >= 0.0 && rtt > 0.0 && r > 0.0 && s > 0.0 && s * s == 3.0 * (r * r)
    ensures MathisBps(mssBits, rtt, r) >= 2.0 * MbmBps(mssBits, rtt, s)
  {
  }

  /** Mathis allows at least twice the rate of the model-based metric. */
  lemma MathisIsTwiceMbm(lossPct: real, rttMs: real, mssBytes: nat, rootMathis: real, rootMbm: real)
    requires lossPct > 0.0 && rttMs > 0.0
    requires IsRoot(rootMathis, Radicand(Mathis, lossPct)) && IsRoot(rootMbm, Radicand(Mbm, lossPct))
    ensures ImpliedMbps(lossPct, rttMs, Mathis, mssBytes, rootMathis).value
            >= 2.0 * ImpliedMbps(lossPct, rttMs, Mbm, mssBytes, rootMbm).value
  {
    BpsRatio((mssBytes * 8) as real, rttMs / 1000.0, rootMathis, rootMbm);
    hide MathisBps, MbmBps;
  }

  lemma MathisFalls(mssBits: real, rtt1: real, rtt2: real, r1: real, r2: real)
    requires mssBits >= 0.0 && 0.0 < rtt1 <= rtt2 && 0.0 < r1 <= r2
    ensures MathisBps(mssBits, rtt1, r1) >= MathisBps(mssBits, rtt2, r2) >= 0.0
  {
    ProductMono(rtt1, rtt2, r1, r2);
    FractionMono(1.22 * mssBits, 1.22 * mssBits, rtt1 * r1, rtt2 * r2);
  }

  lemma MbmFalls(mssBits: real, rtt1: real, rtt2: real, r1: real, r2: real)
    requires mssBits >= 0.0 && 0.0 < rtt1 <= rtt2 && 0.0 < r1 <= r2
    ensures MbmBps(mssBits, rtt1, r1) >= MbmBps(mssBits, rtt2, r2) >= 0.0
  {
    DivAnti(1.0, r1, r2);
    WindowTimesRoot(r2);
    var w1, w2 := MbmWindow(r1) as real, MbmWindow(r2) as real;
    MulMono(w2, w1, mssBits);
    MulMono(0.0, w2, mssBits);
    hide MbmWindow;
    FractionMono(w1 * mssBits, w2 * mssBits, rtt1, rtt2);
  }

  /** More loss or a longer round trip never implies a higher rate. */
  lemma RatesFallWithLossAndRtt(model: LossModel, mssBytes: nat, loss1: real, rtt1: real, root1: real,
                                loss2: real, rtt2: real, root2: real)
    requires 0.0 < loss1 <= loss2 && 0.0 < rtt1 <= rtt2
    requires IsRoot(root1, Radicand(model, loss1)) && IsRoot(root2, Radicand(model, loss2))
    ensures ImpliedMbps(loss1, rtt1, model, mssBytes, root1).value
            >= ImpliedMbps(loss2, rtt2, model, mssBytes, root2).value >= 0.0
  {
    RootMono(root1, Radicand(model, loss1), root2, Radicand(model, loss2));
    MathisFalls((mssBytes * 8) as real, rtt1 / 1000.0, rtt2 / 1000.0, root1, root2);
    MbmFalls((mssBytes * 8) as real, rtt1 / 1000.0, rtt2 / 1000.0, root1, root2);
    hide MathisBps, MbmBps;
  }

  /** No loss, or no round trip, is no constraint, and nothing else is. */
  lemma NoLossNoConstraint(lossPct: real, rttMs: real, model: LossModel, mssBytes: nat, root: real)
    requires lossPct > 0.0 ==> IsRoot(root, Radicand(model, lossPct))
    ensures ImpliedMbps(lossPct, rttMs, model, mssBytes, root).None? <==> lossPct <= 0.0 || rttMs <= 0.0
  {
  }
}
