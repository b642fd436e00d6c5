/** What a marker queues (crates/agent/src/mark.rs, `read`), told from the replies of its
    reads alone: when there is a block, when it is a reset, and what it counts. */
module MarkerReads {
  import opened Core
  import opened AgentMark

  /** Blocks alternate between two colours; a read of a block looks at the four sets of
      its own. */
  function SetOf(n: nat, dir: Dir, band: Band): SetName { SetName(dir, if n % 2 == 0 then A else B, band) }

  /** The call succeeded: nft listed all four sets. */
  predicate Succeeds(call: ReadCall) {
    call.reply.Some? && forall dir, band :: SetOf(call.n, dir, band) in call.reply.value
  }

  /** The last successful read before k of its colour was for the block two before. */
  ghost predicate Prior(calls: seq<ReadCall>, i: int, k: nat)
    requires k < |calls|
  {
    && 0 <= i < k && Succeeds(calls[i]) && calls[i].n + 2 == calls[k].n
    && forall j :: i < j < k ==> !(Succeeds(calls[j]) && calls[j].n % 2 == calls[k].n % 2)
  }

  /** The read listed the interface in all four sets of block n. */
  predicate Lists(call: ReadCall, n: nat, iface: string) {
    && call.reply.Some?
    && forall dir, band ::
         SetOf(n, dir, band) in call.reply.value && iface in call.reply.value[SetOf(n, dir, band)].elems
  }

  /** Counting restarted: another handle, a missing element, or a counter gone back. */
  predicate Restarted(before: SetCounters, now: SetCounters, iface: string)
    requires iface in before.elems
  {
    || before.handle != now.handle
    || iface !in now.elems
    || now.elems[iface].pkts < before.elems[iface].pkts
    || now.elems[iface].bytes < before.elems[iface].bytes
  }

  /** Packets and bytes one set counted between two reads. */
  predicate Counted(before: SetCounters, now: SetCounters, iface: string, pkts: nat, bytes: nat)
    requires iface in before.elems
  {
    && iface in now.elems
    && now.elems[iface] == Counter(before.elems[iface].pkts + pkts, before.elems[iface].bytes + bytes)
  }

  /** The block of two reads: a reset, with nothing counted, when any of the four sets
      restarted; else what they counted. */
  ghost predicate TellsBlock(b: MarkBlock, before: ReadCall, now: ReadCall, iface: string, secs: nat)
    requires Succeeds(now) && Lists(before, now.n, iface)
  {
    && b.n == now.n && b.secs == secs && b.underTest == now.underTest
    && (b.reset <==> exists dir, band :: RestartedSet(before, now, iface, dir, band))
    && (b.reset ==>
          b.txS == 0 && b.txL == 0 && b.rxS == 0 && b.rxL == 0 && b.txBytes == 0 && b.rxBytes == 0)
    && (!b.reset ==> exists txS: nat, txL: nat, rxS: nat, rxL: nat ::
          && CountedSet(before, now, iface, Tx, Short, b.txS, txS)
          && CountedSet(before, now, iface, Tx, Long, b.txL, txL)
          && CountedSet(before, now, iface, Rx, Short, b.rxS, rxS)
          && CountedSet(before, now, iface, Rx, Long, b.rxL, rxL)
          && b.txBytes == txS + txL && b.rxBytes == rxS + rxL)
  }

  predicate RestartedSet(before: ReadCall, now: ReadCall, iface: string, dir: Dir, band: Band)
    requires Succeeds(now) && Lists(before, now.n, iface)
  {
    var name := SetOf(now.n, dir, band);
    Restarted(before.reply.value[name], now.reply.value[name], iface)
  }

  predicate CountedSet(before: ReadCall, now: ReadCall, iface: string, dir: Dir, band: Band, pkts: nat, bytes: nat)
    requires Succeeds(now) && Lists(before, now.n, iface)
  {
    var name := SetOf(now.n, dir, band);
    Counted(before.reply.value[name], now.reply.value[name], iface, pkts, bytes)
  }

  lemma FourSets(n: nat, dir: Dir, band: Band)
    ensures SetOf(n, dir, band) == NameOf(n, dir, band)
    ensures SetOf(n, dir, band) in {SetOf(n, Tx, Short), SetOf(n, Tx, Long), SetOf(n, Rx, Short), SetOf(n, Rx, Long)}
  {
    match (dir, band)
    case (Tx, Short) =>
    case (Tx, Long) =>
    case (Rx, Short) =>
    case (Rx, Long) =>
  }

  lemma SucceedsIsOk(call: ReadCall)
    ensures Succeeds(call) <==> call.Ok()
  {
    forall dir, band ensures SetOf(call.n, dir, band) == NameOf(call.n, dir, band) {
      FourSets(call.n, dir, band);
    }
    if call.Ok() {
      forall dir, band ensures SetOf(call.n, dir, band) in call.reply.value {
        FourSets(call.n, dir, band);
      }
    }
    hide NameOf;
  }

  /** The baseline a block needs is there exactly after such a read. */
  lemma BaselineIsPrior(calls: seq<ReadCall>, k: nat, dir: Dir, band: Band)
    requires k < |calls|
    ensures var (n, i) := (calls[k].n, LatestRead(calls[..k], ColourOf(calls[k].n)));
            && (forall j :: Prior(calls, j, k) ==> j == i)
            && (Prior(calls, i, k) <==> BaselineOf(BaselinesAfter(calls[..k]), NameOf(n, dir, band), n).Some?)
            && (Prior(calls, i, k) ==>
                  && NameOf(n, dir, band) in calls[i].reply.value
                  && BaselineOf(BaselinesAfter(calls[..k]), NameOf(n, dir, band), n)
                     == Some(calls[i].reply.value[NameOf(n, dir, band)]))
  {
    var n, front := calls[k].n, calls[..k];
    var name := NameOf(n, dir, band);
    BaselinesAreLatestReads(front, name);
    hide BaselinesAfter;
    forall j | 0 <= j < k ensures Succeeds(calls[j]) <==> front[j].Ok() {
      SucceedsIsOk(calls[j]);
    }
    hide Succeeds, ReadCall.Ok;
    forall j | Prior(calls, j, k) ensures j == LatestRead(front, ColourOf(n)) {
      assert front[j] == calls[j];
    }
    assert forall j :: 0 <= j < k ==> front[j] == calls[j];
  }

  ghost predicate Bases(last: Baselines, before: ReadCall, n: nat) {
    before.reply.Some? && forall dir, band ::
      SetOf(n, dir, band) in before.reply.value
      && BaselineOf(last, SetOf(n, dir, band), n) == Some(before.reply.value[SetOf(n, dir, band)])
  }

  /** What the difference of one set says. */
  predicate DeltaOk(last: Baselines, before: ReadCall, now: ReadCall, iface: string, dir: Dir, band: Band)
    requires Succeeds(now) && Lists(before, now.n, iface)
  {
    var name, sets := SetOf(now.n, dir, band), now.reply.value;
    var d := Delta(last, sets, name, iface, now.n);
    && HasElem(last, name, iface, now.n)
    && (RestartedSet(before, now, iface, dir, band) <==> HandleChanged(last, sets, name, now.n) || d.None?)
    && (d.Some? ==> CountedSet(before, now, iface, dir, band, d.value.pkts, d.value.bytes))
  }

  lemma DeltaTells(last: Baselines, before: ReadCall, now: ReadCall, iface: string, dir: Dir, band: Band)
    requires Succeeds(now) && Bases(last, before, now.n) && Lists(before, now.n, iface)
    ensures DeltaOk(last, before, now, iface, dir, band)
  {
  }

  /** From two such reads. */
  lemma BlockTells(last: Baselines, before: ReadCall, now: ReadCall, iface: string, secs: nat)
    requires Succeeds(now) && now.Ok() && Bases(last, before, now.n)
    ensures var b := BlockFor(last, now.reply.value, iface, now.n, secs, now.underTest);
            && (b.Some? <==> Lists(before, now.n, iface))
            && (b.Some? ==> TellsBlock(b.value, before, now, iface, secs))
  {
    forall dir, band ensures SetOf(now.n, dir, band) == NameOf(now.n, dir, band)
      && SetOf(now.n, dir, band) in {SetOf(now.n, Tx, Short), SetOf(now.n, Tx, Long),
                                     SetOf(now.n, Rx, Short), SetOf(now.n, Rx, Long)}
    {
      FourSets(now.n, dir, band);
    }
    hide NameOf, SetOf;
    if Lists(before, now.n, iface) {
      forall dir, band ensures DeltaOk(last, before, now, iface, dir, band) {
        DeltaTells(last, before, now, iface, dir, band);
      }
      hide Delta, HasElem, HandleChanged, RestartedSet, CountedSet, Lists, Succeeds, BaselineOf, ReadCall.Ok;
      assert DeltaOk(last, before, now, iface, Tx, Short) && DeltaOk(last, before, now, iface, Tx, Long);
      assert DeltaOk(last, before, now, iface, Rx, Short) && DeltaOk(last, before, now, iface, Rx, Long);
    }
  }

  /** The main theorem. A call queues a block for an interface exactly when it succeeds
      for it and the last successful read of the colour, for the block two before, listed
      it in all four sets; the block is then exactly what the two reads tell. */
  lemma BlockTellsReads(calls: seq<ReadCall>, k: nat, iface: string, secs: nat)
    requires k < |calls|
    ensures var e := Emitted(calls, k, iface, secs);
            && (e.Some? <==> Succeeds(calls[k]) && iface in calls[k].ifaces
                             && exists i :: Prior(calls, i, k) && Lists(calls[i], calls[k].n, iface))
            && (forall i :: e.Some? && Prior(calls, i, k) ==>
                  Lists(calls[i], calls[k].n, iface) && TellsBlock(e.value, calls[i], calls[k], iface, secs))
  {
    SucceedsIsOk(calls[k]);
    var n, i := calls[k].n, LatestRead(calls[..k], ColourOf(calls[k].n));
    var last := BaselinesAfter(calls[..k]);
    forall dir, band ensures SetOf(n, dir, band) == NameOf(n, dir, band)
      && (Prior(calls, i, k) <==> BaselineOf(last, SetOf(n, dir, band), n).Some?)
      && (Prior(calls, i, k) ==>
            && SetOf(n, dir, band) in calls[i].reply.value
            && BaselineOf(last, SetOf(n, dir, band), n) == Some(calls[i].reply.value[SetOf(n, dir, band)]))
    {
      FourSets(n, dir, band);
      BaselineIsPrior(calls, k, dir, band);
    }
    BaselineIsPrior(calls, k, Tx, Short);
    hide BaselinesAfter, LatestRead, BaselineOf, SetOf, NameOf, Prior;
    if calls[k].Ok() && Prior(calls, i, k) {
      BlockTells(last, calls[i], calls[k], iface, secs);
    }
    if calls[k].Ok() && !Prior(calls, i, k) {
      assert BaselineOf(last, SetOf(n, Tx, Short), n).None?;
    }
  }
}
