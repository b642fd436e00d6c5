/** The classifier's view of a ring (crates/controller/src/tsdb.rs, `window`): the
    early-exit reverse scans against the plain reading of each dimension. */
module Window {
  import opened Core
  import opened Samples
  import opened Ring

  datatype Spec = Spec(alwaysFresh: nat, tcpFresh: nat, tcpCarry: nat)

  datatype View = View(ts: nat, state: nat, util: real,
                       rtt: Option<real>, loss: Option<real>, jitter: Option<real>,
                       tcp: Option<real>, tcpCarried: bool,
                       udp: Option<real>, udpJitter: Option<real>, udpLoss: Option<real>)

  function Age(now: nat, s: Sample): nat { SatSub(now, s.ts) }

  function Value(s: Sample, d: Dim): Option<real> {
    if d in s.dims then Some(s.dims[d]) else None
  }

  /** `x` is the newest sample no older than the horizon that carries any of the
      dimensions; `{}` asks for none in particular. */
  predicate IsNewest(samples: seq<Sample>, now: nat, horizon: nat, ds: set<Dim>, x: Sample) {
    && x in samples && Matches(x, now, horizon, ds)
    && forall y :: y in samples && Matches(y, now, horizon, ds) ==> y.ts <= x.ts
  }

  predicate Matches(s: Sample, now: nat, horizon: nat, ds: set<Dim>) {
    Age(now, s) <= horizon && (ds == {} || exists d :: d in ds && d in s.dims)
  }

  predicate NoneMatches(samples: seq<Sample>, now: nat, horizon: nat, ds: set<Dim>) {
    forall y :: y in samples ==> !Matches(y, now, horizon, ds)
  }

  /** A dimension read off its newest carrier within the horizon. */
  ghost predicate IsNewestValue(samples: seq<Sample>, now: nat, horizon: nat, d: Dim, v: Option<real>) {
    match v
    case None => NoneMatches(samples, now, horizon, {d})
    case Some(value) => exists x :: IsNewest(samples, now, horizon, {d}, x) && Value(x, d) == v
  }

  ghost predicate IsWindow(samples: seq<Sample>, spec: Spec, now: nat, view: Option<View>) {
    match view
    case None => NoneMatches(samples, now, spec.tcpCarry, {})
    case Some(v) =>
      && (exists x :: IsNewest(samples, now, spec.tcpCarry, {}, x)
                   && v.ts == x.ts && v.state == x.state && v.util == x.util)
      && IsNewestValue(samples, now, spec.alwaysFresh, Rtt, v.rtt)
      && IsNewestValue(samples, now, spec.alwaysFresh, Loss, v.loss)
      && IsNewestValue(samples, now, spec.alwaysFresh, Jitter, v.jitter)
      && IsTcp(samples, spec, now, v.tcp, v.tcpCarried)
      && IsUdp(samples, spec, now, v.udp, v.udpJitter, v.udpLoss)
  }

  /** Throughput is carried past freshness up to the carry horizon, and says so. */
  ghost predicate IsTcp(samples: seq<Sample>, spec: Spec, now: nat, tcp: Option<real>, carried: bool) {
    match tcp
    case None => !carried && NoneMatches(samples, now, spec.tcpCarry, {Tcp})
    case Some(_) => exists x :: IsNewest(samples, now, spec.tcpCarry, {Tcp}, x) && Value(x, Tcp) == tcp
                             && (carried <==> Age(now, x) > spec.tcpFresh)
  }

  /** The UDP values travel as one set: all three come from one sample. */
  ghost predicate IsUdp(samples: seq<Sample>, spec: Spec, now: nat,
                        udp: Option<real>, jitter: Option<real>, loss: Option<real>)
  {
    if udp == None && loss == None
    then jitter == None && NoneMatches(samples, now, spec.tcpCarry, {Udp, UdpLoss})
    else exists x :: IsNewest(samples, now, spec.tcpCarry, {Udp, UdpLoss}, x)
                  && Value(x, Udp) == udp && Value(x, UdpJitter) == jitter && Value(x, UdpLoss) == loss
  }

  /** Everything newer than position i was skipped, everything before it is older. */
  lemma ScanIsNewest(samples: seq<Sample>, now: nat, horizon: nat, ds: set<Dim>, i: nat)
    requires Sorted(samples) && i < |samples| && Matches(samples[i], now, horizon, ds)
    requires forall j :: i < j < |samples| ==> !Matches(samples[j], now, horizon, ds)
    ensures IsNewest(samples, now, horizon, ds, samples[i])
  {
  }

  /** Once a sample is too old, so is everything before it. */
  lemma ScanMayStop(samples: seq<Sample>, now: nat, horizon: nat, ds: set<Dim>, i: nat)
    requires Sorted(samples) && i <= |samples|
    requires i > 0 ==> Age(now, samples[i - 1]) > horizon
    requires forall j :: i <= j < |samples| ==> !Matches(samples[j], now, horizon, ds)
    ensures NoneMatches(samples, now, horizon, ds)
  {
  }

  /** `window`: nothing when the link is unknown or too old, otherwise each
      dimension's newest value within its horizon. */
  method WindowOf(rings: map<LinkKey, Ring>, link: LinkKey, spec: Spec, now: nat) returns (view: Option<View>)
    requires forall k :: k in rings ==> RingOk(rings[k])
    ensures IsWindow(if link in rings then rings[link].samples else [], spec, now, view)
  {
    if link !in rings {
      return None;
    }
    var samples := rings[link].samples;
    var newest := FindNewest(samples, spec.tcpCarry, now);
    if newest == None {
      return None;
    }
    var rtt, loss, jitter := ScanAlways(samples, spec.alwaysFresh, now);
    var tcp, carried := ScanTcp(samples, spec, now);
    var udp, udpJitter, udpLoss := ScanUdp(samples, spec, now);
    return Some(View(newest.value.ts, newest.value.state, newest.value.util,
                     rtt, loss, jitter, tcp, carried, udp, udpJitter, udpLoss));
  }

  method FindNewest(samples: seq<Sample>, carry: nat, now: nat) returns (newest: Option<Sample>)
    requires Sorted(samples)
    ensures match newest
            case None => NoneMatches(samples, now, carry, {})
            case Some(x) => IsNewest(samples, now, carry, {}, x)
  {
    var i := |samples|;
    while i > 0
      invariant 0 <= i <= |samples|
      invariant forall j :: i <= j < |samples| ==> !Matches(samples[j], now, carry, {})
    {
      i := i - 1;
      if Age(now, samples[i]) <= carry {
        ScanIsNewest(samples, now, carry, {}, i);
        return Some(samples[i]);
      }
    }
    ScanMayStop(samples, now, carry, {}, 0);
    return None;
  }

  /** The always-tier loop: one scan fills each dimension from its freshest carrier. */
  method ScanAlways(samples: seq<Sample>, horizon: nat, now: nat)
    returns (rtt: Option<real>, loss: Option<real>, jitter: Option<real>)
    requires Sorted(samples)
    ensures IsNewestValue(samples, now, horizon, Rtt, rtt)
    ensures IsNewestValue(samples, now, horizon, Loss, loss)
    ensures IsNewestValue(samples, now, horizon, Jitter, jitter)
  {
    rtt, loss, jitter := None, None, None;
    var i := |samples|;
    while i > 0
      invariant 0 <= i <= |samples|
      invariant FoundFrom(samples, now, horizon, Rtt, rtt, i)
      invariant FoundFrom(samples, now, horizon, Loss, loss, i)
      invariant FoundFrom(samples, now, horizon, Jitter, jitter, i)
    {
      if Age(now, samples[i - 1]) > horizon {
        break;
      }
      i := i - 1;
      FoundStep(samples, now, horizon, Rtt, rtt, i);
      FoundStep(samples, now, horizon, Loss, loss, i);
      FoundStep(samples, now, horizon, Jitter, jitter, i);
      if rtt == None {
        rtt := Value(samples[i], Rtt);
      }
      if loss == None {
        loss := Value(samples[i], Loss);
      }
      if jitter == None {
        jitter := Value(samples[i], Jitter);
      }
    }
    FoundAll(samples, now, horizon, Rtt, rtt, i);
    FoundAll(samples, now, horizon, Loss, loss, i);
    FoundAll(samples, now, horizon, Jitter, jitter, i);
  }

  /** What a scan down to position i has found of one dimension. */
  ghost predicate FoundFrom(samples: seq<Sample>, now: nat, horizon: nat, d: Dim, v: Option<real>, i: nat)
    requires i <= |samples|
  {
    match v
    case None => forall j :: i <= j < |samples| ==> !Matches(samples[j], now, horizon, {d})
    case Some(_) => exists x :: IsNewest(samples, now, horizon, {d}, x) && Value(x, d) == v
  }

  lemma FoundStep(samples: seq<Sample>, now: nat, horizon: nat, d: Dim, v: Option<real>, i: nat)
    requires Sorted(samples) && i < |samples| && Age(now, samples[i]) <= horizon
    requires FoundFrom(samples, now, horizon, d, v, i + 1)
    ensures FoundFrom(samples, now, horizon, d, if v == None then Value(samples[i], d) else v, i)
  {
  }

  lemma FoundAll(samples: seq<Sample>, now: nat, horizon: nat, d: Dim, v: Option<real>, i: nat)
    requires Sorted(samples) && i <= |samples| && (i > 0 ==> Age(now, samples[i - 1]) > horizon)
    requires FoundFrom(samples, now, horizon, d, v, i)
    ensures IsNewestValue(samples, now, horizon, d, v)
  {
  }

  method ScanTcp(samples: seq<Sample>, spec: Spec, now: nat) returns (tcp: Option<real>, carried: bool)
    requires Sorted(samples)
    ensures IsTcp(samples, spec, now, tcp, carried)
  {
    tcp, carried := None, false;
    var i := |samples|;
    while i > 0
      invariant 0 <= i <= |samples| && tcp == None && !carried
      invariant forall j :: i <= j < |samples| ==> !Matches(samples[j], now, spec.tcpCarry, {Tcp})
    {
      if Age(now, samples[i - 1]) > spec.tcpCarry {
        break;
      }
      i := i - 1;
      if Tcp in samples[i].dims {
        assert Matches(samples[i], now, spec.tcpCarry, {Tcp});
        ScanIsNewest(samples, now, spec.tcpCarry, {Tcp}, i);
        return Some(samples[i].dims[Tcp]), Age(now, samples[i]) > spec.tcpFresh;
      }
    }
    ScanMayStop(samples, now, spec.tcpCarry, {Tcp}, i);
  }

  method ScanUdp(samples: seq<Sample>, spec: Spec, now: nat)
    returns (udp: Option<real>, jitter: Option<real>, loss: Option<real>)
    requires Sorted(samples)
    ensures IsUdp(samples, spec, now, udp, jitter, loss)
  {
    udp, jitter, loss := None, None, None;
    var i := |samples|;
    while i > 0
      invariant 0 <= i <= |samples| && udp == jitter == loss == None
      invariant forall j :: i <= j < |samples| ==> !Matches(samples[j], now, spec.tcpCarry, {Udp, UdpLoss})
    {
      if Age(now, samples[i - 1]) > spec.tcpCarry {
        break;
      }
      i := i - 1;
      if Udp in samples[i].dims || UdpLoss in samples[i].dims {
        assert Udp in {Udp, UdpLoss} && UdpLoss in {Udp, UdpLoss};
        assert Matches(samples[i], now, spec.tcpCarry, {Udp, UdpLoss});
        ScanIsNewest(samples, now, spec.tcpCarry, {Udp, UdpLoss}, i);
        return Value(samples[i], Udp), Value(samples[i], UdpJitter), Value(samples[i], UdpLoss);
      }
    }
    ScanMayStop(samples, now, spec.tcpCarry, {Udp, UdpLoss}, i);
  }

  /** The view is determined by the ring: two windows of one sorted ring agree. */
  lemma WindowIsUnique(samples: seq<Sample>, spec: Spec, now: nat, a: Option<View>, b: Option<View>)
    requires Sorted(samples) && IsWindow(samples, spec, now, a) && IsWindow(samples, spec, now, b)
    ensures a == b
  {
    hide Matches;
    if a.Some? && b.Some? {
      var x :| IsNewest(samples, now, spec.tcpCarry, {}, x)
        && a.value.ts == x.ts && a.value.state == x.state && a.value.util == x.util;
      NewestIsUnique(samples, now, spec.tcpCarry, {}, x);
      NewestValueIsUnique(samples, now, spec.alwaysFresh, Rtt, a.value.rtt, b.value.rtt);
      NewestValueIsUnique(samples, now, spec.alwaysFresh, Loss, a.value.loss, b.value.loss);
      NewestValueIsUnique(samples, now, spec.alwaysFresh, Jitter, a.value.jitter, b.value.jitter);
      TcpIsUnique(samples, spec, now, a.value, b.value);
      UdpIsUnique(samples, spec, now, a.value, b.value);
    }
  }

  lemma NewestIsUnique(samples: seq<Sample>, now: nat, horizon: nat, ds: set<Dim>, x: Sample)
    requires Sorted(samples) && IsNewest(samples, now, horizon, ds, x)
    ensures !NoneMatches(samples, now, horizon, ds)
    ensures forall y :: IsNewest(samples, now, horizon, ds, y) ==> y == x
  {
  }

  lemma NewestValueIsUnique(samples: seq<Sample>, now: nat, horizon: nat, d: Dim, v: Option<real>, w: Option<real>)
    requires Sorted(samples)
    requires IsNewestValue(samples, now, horizon, d, v) && IsNewestValue(samples, now, horizon, d, w)
    ensures v == w
  {
  }

  lemma TcpIsUnique(samples: seq<Sample>, spec: Spec, now: nat, v: View, w: View)
    requires Sorted(samples)
    requires IsTcp(samples, spec, now, v.tcp, v.tcpCarried) && IsTcp(samples, spec, now, w.tcp, w.tcpCarried)
    ensures v.tcp == w.tcp && v.tcpCarried == w.tcpCarried
  {
  }

  lemma UdpIsUnique(samples: seq<Sample>, spec: Spec, now: nat, v: View, w: View)
    requires Sorted(samples)
    requires IsUdp(samples, spec, now, v.udp, v.udpJitter, v.udpLoss)
    requires IsUdp(samples, spec, now, w.udp, w.udpJitter, w.udpLoss)
    ensures v.udp == w.udp && v.udpJitter == w.udpJitter && v.udpLoss == w.udpLoss
  {
  }

  /** A window is anchored at the ring's newest sample. */
  lemma WindowTimeIsNewest(samples: seq<Sample>, spec: Spec, now: nat, view: View)
    requires Sorted(samples) && IsWindow(samples, spec, now, Some(view))
    ensures samples != [] && view.ts == samples[|samples| - 1].ts
  {
  }
}
