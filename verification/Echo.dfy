/** Samples that disagree (crates/controller/src/gossip.rs, crates/controller/src/tsdb.rs):
    when two members measured one second of a link differently, each accepts what the
    other sends back, for ever. */
module Echo {
  import opened Core
  import opened Samples
  import opened Ring
  import LinkHistory
  import opened Tsdb
  import opened Replica
  import opened Gossip

  /** Two samples of one second give one dimension different values. */
  predicate Clash(a: Sample, b: Sample) {
    && a.ts == b.ts > 0
    && (|| (exists d :: d in a.dims && d in b.dims && a.dims[d] != b.dims[d])
        || (exists m :: m in a.mark && m in b.mark && a.mark[m] != b.mark[m]))
  }

  /** Either order of the merge is undone by the other. */
  predicate Turns(a: Sample, b: Sample) {
    a != b && a.ts == b.ts > 0 && MergedWith(a, b) == b && MergedWith(b, a) == a
  }

  lemma ClashTurns(a: Sample, b: Sample)
    requires Clash(a, b)
    ensures MergedWith(a, b) != a && MergedWith(b, a) != b && MergedWith(a, b).ts == a.ts
    ensures Turns(MergedWith(a, b), MergedWith(b, a))
  {
    var ab, ba := MergedWith(a, b), MergedWith(b, a);
    assert ab.dims + ba.dims == ba.dims && ba.dims + ab.dims == ab.dims;
    assert ab.mark + ba.mark == ba.mark && ba.mark + ab.mark == ab.mark;
    if d :| d in a.dims && d in b.dims && a.dims[d] != b.dims[d] {
      assert ab.dims[d] == b.dims[d] && ba.dims[d] == a.dims[d];
    } else {
      var m :| m in a.mark && m in b.mark && a.mark[m] != b.mark[m];
      assert ab.mark[m] == b.mark[m] && ba.mark[m] == a.mark[m];
    }
  }

  lemma TurnsBack(a: Sample, b: Sample)
    requires Turns(a, b)
    ensures Turns(b, a)
  {
  }

  // ── One member ───────────────────────────────────────────────────────────

  predicate IsOf(e: Entry, link: LinkKey, s: Sample) { e.link == link && e.s == s }

  /** The member holds one sample of the link, and `pending` is what it logged since
      the peer's watermark. */
  ghost predicate Standing(m: Member, peer: string, link: LinkKey, held: Sample, pending: seq<Sample>) {
    && LogOk(m) && m.store.recent == m.log
    && LinkOf(m.store, link).ring == Ring([held], 0) && held.ts > 0
    && |pending| <= |m.log| && Mark(m, peer) == |m.log| - |pending|
    && forall i :: 0 <= i < |pending| ==> IsOf(m.log[|m.log| - |pending| + i], link, pending[i])
  }

  function Tagged(link: LinkKey, samples: seq<Sample>): seq<(LinkKey, Sample)> {
    seq(|samples|, i requires 0 <= i < |samples| => (link, samples[i]))
  }

  /** The round to the peer carries what is pending, and its acknowledgement leaves
      nothing pending (`NothingPending`). */
  lemma PendingIsSent(m: Member, from: string, to: string, link: LinkKey, held: Sample, pending: seq<Sample>)
    requires Standing(m, to, link, held, pending) && |pending| <= DELTA_LIMIT
    ensures var k := |m.log| - |pending|;
            TakeForPeer(m, from, to) == Push(from, to, k, |m.log|, Tagged(link, pending))
  {
    hide LinkOf, Delta, LastOf, Payload, Tagged;
    var k := |m.log| - |pending|;
    LogTail(m.log, k);
    TailIsTagged(m.log[k..], link, pending);
  }

  lemma NothingPending(m: Member, to: string, link: LinkKey, held: Sample, pending: seq<Sample>)
    requires Standing(m, to, link, held, pending)
    ensures Standing(m.(sent := m.sent[to := |m.log|]), to, link, held, [])
  {
    hide LinkOf, LogOk;
    SentDoesNotMatter(m, m.sent[to := |m.log|]);
  }

  lemma LogTail(log: seq<Entry>, k: nat)
    requires k <= |log| <= k + DELTA_LIMIT && forall i :: 0 <= i < |log| ==> log[i].num == i + 1
    ensures Delta(log, k, DELTA_LIMIT) == log[k..] && LastOf(log[k..], k) == |log|
  {
    StartOfDelta(log, k, k);
  }

  lemma TailIsTagged(tail: seq<Entry>, link: LinkKey, pending: seq<Sample>)
    requires |tail| == |pending| && forall i :: 0 <= i < |pending| ==> IsOf(tail[i], link, pending[i])
    ensures Payload(tail) == Tagged(link, pending)
  {
  }

  lemma FirstStands(peer: string, link: LinkKey, s: Sample)
    requires s.ts > 0
    ensures Standing(Taken(NEW_MEMBER, link, s), peer, link, s, [s])
  {
    LinkHistory.FirstOffer(s);
    TakenKeepsLog(NEW_MEMBER, link, s);
    hide Offer, LinkHistory.Accept;
    IngestLink(NEW_STORE, link, s, link);
    AcceptRing(LinkOf(NEW_STORE, link), s);
    assert [] + [Entry(1, link, s)] == [Entry(1, link, s)];
  }

  /** A sample that changes what is held becomes pending as merged. */
  lemma TakeStands(m: Member, peer: string, link: LinkKey, held: Sample, pending: seq<Sample>, s: Sample)
    requires Standing(m, peer, link, held, pending)
    requires s.ts == held.ts && MergedWith(held, s) != held
    ensures var now := MergedWith(held, s);
            && now.ts == held.ts
            && Standing(Taken(m, link, s), peer, link, now, pending + [now])
    ensures Taken(m, link, s).store.next == m.store.next + 1
  {
    LinkHistory.OneSecondMerge(held, s);
    TakenKeepsLog(m, link, s);
    hide Offer, MergedWith;
    IngestLink(m.store, link, s, link);
    AcceptRing(LinkOf(m.store, link), s);
    LinkHistory.MergeTime(held, s);
  }

  // ── One exchange ─────────────────────────────────────────────────────────

  /** A round that takes place undisturbed. */
  function Exchange(c: Cluster, from: string, to: string): seq<Action>
    requires from in c.members
  {
    [Begin(from, to), Deliver(TakeForPeer(c.members[from], from, to)), Acked(from, to)]
  }

  function Exchanged(c: Cluster, from: string, to: string): Cluster
    requires from in c.members
  {
    Apply(Apply(Apply(c, Begin(from, to)), Deliver(TakeForPeer(c.members[from], from, to))), Acked(from, to))
  }

  lemma ExchangeEffect(c: Cluster, from: string, to: string)
    requires from in c.members && to in c.members && from != to && (from, to) !in c.rounds
    ensures var push, c' := TakeForPeer(c.members[from], from, to), Exchanged(c, from, to);
            && c'.rounds == c.rounds
            && c'.members == c.members[to := TakenAll(c.members[to], push.samples)]
                                      [from := c.members[from].(sent := c.members[from].sent[to := push.last])]
  {
    hide Taken, TakeForPeer;
    assert TakeForPeer(c.members[from], from, to).to == to by { PushTo(c.members[from], from, to); }
  }

  lemma PushTo(m: Member, from: string, to: string)
    ensures TakeForPeer(m, from, to).to == to
  {
  }

  lemma RunExchange(names: set<string>, actions: seq<Action>, from: string, to: string)
    requires from in Run(names, actions).members
    ensures Run(names, actions + Exchange(Run(names, actions), from, to)) == Exchanged(Run(names, actions), from, to)
  {
    hide Apply, TakeForPeer;
    var more := Exchange(Run(names, actions), from, to);
    RunOneMore(names, actions, more[0]);
    RunOneMore(names, actions + more[..1], more[1]);
    RunOneMore(names, actions + more[..2], more[2]);
    assert actions + more[..1] == actions + [more[0]];
    assert actions + more[..2] == actions + more[..1] + [more[1]];
    assert actions + more == actions + more[..2] + [more[2]];
  }

  lemma RunOneMore(names: set<string>, actions: seq<Action>, a: Action)
    ensures Run(names, actions + [a]) == Apply(Run(names, actions), a)
  {
  }

  /** Two members with one link between them; no round is under way. */
  ghost predicate Idle(c: Cluster, x: string, y: string) {
    x in c.members && y in c.members && x != y && (x, y) !in c.rounds && (y, x) !in c.rounds
  }

  lemma SendOne(c: Cluster, from: string, to: string, link: LinkKey, mine: Sample, theirs: Sample,
                pending: seq<Sample>, s: Sample)
    requires Idle(c, from, to)
    requires Standing(c.members[from], to, link, mine, [s]) && Standing(c.members[to], from, link, theirs, pending)
    requires s.ts == theirs.ts && MergedWith(theirs, s) != theirs
    ensures var c', now := Exchanged(c, from, to), MergedWith(theirs, s);
            && Idle(c', from, to)
            && Standing(c'.members[from], to, link, mine, [])
            && Standing(c'.members[to], from, link, now, pending + [now])
            && c'.members[from].store.next == c.members[from].store.next
            && c'.members[to].store.next == c.members[to].store.next + 1
  {
    hide Standing, TakeForPeer, Exchanged, MergedWith, Taken;
    ExchangeEffect(c, from, to);
    PendingIsSent(c.members[from], from, to, link, mine, [s]);
    NothingPending(c.members[from], to, link, mine, [s]);
    TakeStands(c.members[to], from, link, theirs, pending, s);
    assert Tagged(link, [s]) == [(link, s)];
    OneTaken(c.members[to], link, s);
  }

  lemma OneTaken(m: Member, link: LinkKey, s: Sample)
    ensures TakenAll(m, [(link, s)]) == Taken(m, link, s)
  {
    hide Taken;
    assert [(link, s)][..0] == [];
    assert TakenAll(m, []) == m;
  }

  lemma SendTwo(c: Cluster, from: string, to: string, link: LinkKey, mine: Sample, theirs: Sample,
                pending: seq<Sample>, s: Sample, t: Sample)
    requires Idle(c, from, to)
    requires Standing(c.members[from], to, link, mine, [s, t]) && Standing(c.members[to], from, link, theirs, pending)
    requires s.ts == t.ts == theirs.ts && MergedWith(theirs, s) != theirs
    requires MergedWith(MergedWith(theirs, s), t) != MergedWith(theirs, s)
    ensures var c', mid := Exchanged(c, from, to), MergedWith(theirs, s);
            && Idle(c', from, to)
            && Standing(c'.members[from], to, link, mine, [])
            && Standing(c'.members[to], from, link, MergedWith(mid, t), pending + [mid, MergedWith(mid, t)])
            && c'.members[from].store.next == c.members[from].store.next
            && c'.members[to].store.next == c.members[to].store.next + 2
  {
    hide Standing, TakeForPeer, Exchanged, MergedWith, Taken;
    var mid := MergedWith(theirs, s);
    ExchangeEffect(c, from, to);
    PendingIsSent(c.members[from], from, to, link, mine, [s, t]);
    NothingPending(c.members[from], to, link, mine, [s, t]);
    TakeStands(c.members[to], from, link, theirs, pending, s);
    TakeStands(Taken(c.members[to], link, s), from, link, mid, pending + [mid], t);
    assert pending + [mid] + [MergedWith(mid, t)] == pending + [mid, MergedWith(mid, t)];
    assert Tagged(link, [s, t]) == [(link, s), (link, t)];
    TwoTaken(c.members[to], link, s, t);
  }

  lemma TwoTaken(m: Member, link: LinkKey, s: Sample, t: Sample)
    ensures TakenAll(m, [(link, s), (link, t)]) == Taken(Taken(m, link, s), link, t)
  {
    hide Taken;
    assert [(link, s), (link, t)][..1] == [(link, s)];
    OneTaken(m, link, s);
  }

  // ── The echo ─────────────────────────────────────────────────────────────

  /** Both hold `a`; x is about to send `b` and then `a`. */
  ghost predicate Echoing(c: Cluster, x: string, y: string, link: LinkKey, a: Sample, b: Sample) {
    && Idle(c, x, y)
    && Standing(c.members[x], y, link, a, [b, a]) && Standing(c.members[y], x, link, a, [])
  }

  /** One exchange turns the echo around: the peer accepts both. */
  lemma EchoTurns(c: Cluster, x: string, y: string, link: LinkKey, a: Sample, b: Sample)
    requires Echoing(c, x, y, link, a, b) && Turns(a, b)
    ensures var c' := Exchanged(c, x, y);
            && Echoing(c', y, x, link, a, b)
            && c'.members[x].store.next == c.members[x].store.next
            && c'.members[y].store.next == c.members[y].store.next + 2
  {
    hide Standing, Exchanged, MergedWith;
    SendTwo(c, x, y, link, a, a, [], b, a);
    assert [] + [b, a] == [b, a];
  }

  /** Two local samples, then exchanges in turn. */
  function EchoRun(names: set<string>, x: string, y: string, link: LinkKey, a: Sample, b: Sample, rounds: nat)
    : (actions: seq<Action>)
  {
    if rounds == 0 then [Action.Append(x, link, a), Action.Append(y, link, b)]
    else
      var before := EchoRun(names, x, y, link, a, b, rounds - 1);
      var c := Run(names, before);
      var (from, to) := if rounds % 2 == 1 then (x, y) else (y, x);
      if from in c.members then before + Exchange(c, from, to) else before
  }

  lemma {:induction false} OnlyTwoAppends(names: set<string>, x: string, y: string, link: LinkKey,
                                          a: Sample, b: Sample, rounds: nat)
    ensures var actions := EchoRun(names, x, y, link, a, b, rounds);
            && |actions| >= 2 && actions[0] == Action.Append(x, link, a) && actions[1] == Action.Append(y, link, b)
            && forall i :: 2 <= i < |actions| ==> !actions[i].Append? && !actions[i].Retention?
    decreases rounds
  {
    hide Run, TakeForPeer;
    if rounds > 0 {
      OnlyTwoAppends(names, x, y, link, a, b, rounds - 1);
    }
  }

  lemma EchoRunStep(names: set<string>, x: string, y: string, link: LinkKey, a: Sample, b: Sample, rounds: nat)
    requires x in Run(names, EchoRun(names, x, y, link, a, b, rounds)).members
    requires y in Run(names, EchoRun(names, x, y, link, a, b, rounds)).members
    ensures var c := Run(names, EchoRun(names, x, y, link, a, b, rounds));
            Run(names, EchoRun(names, x, y, link, a, b, rounds + 1))
              == if rounds % 2 == 0 then Exchanged(c, x, y) else Exchanged(c, y, x)
  {
    hide Run, Exchange, Exchanged;
    var (from, to) := if rounds % 2 == 0 then (x, y) else (y, x);
    RunExchange(names, EchoRun(names, x, y, link, a, b, rounds), from, to);
  }

  lemma EchoBegins(names: set<string>, x: string, y: string, link: LinkKey, a: Sample, b: Sample)
    requires x in names && y in names && x != y && Clash(a, b)
    ensures var c := Run(names, EchoRun(names, x, y, link, a, b, 0));
            && Idle(c, x, y) && c.members[x].store.next == c.members[y].store.next == 2
            && Standing(c.members[x], y, link, a, [a]) && Standing(c.members[y], x, link, b, [b])
  {
    hide Standing, Taken, Clash;
    assert a.ts == b.ts > 0 by { assert Clash(a, b); ClashTime(a, b); }
    var first, second := Action.Append(x, link, a), Action.Append(y, link, b);
    RunOneMore(names, [], first);
    RunOneMore(names, [first], second);
    assert [] + [first] == [first] && [first] + [second] == [first, second];
    assert Run(names, []) == Start(names);
    FirstStands(y, link, a);
    FirstStands(x, link, b);
    StandingNext(Taken(NEW_MEMBER, link, a), y, link, a, [a]);
    StandingNext(Taken(NEW_MEMBER, link, b), x, link, b, [b]);
    OneLogged(link, a);
    OneLogged(link, b);
  }

  lemma ClashTime(a: Sample, b: Sample)
    requires Clash(a, b)
    ensures a.ts == b.ts > 0
  {
  }

  lemma StandingNext(m: Member, peer: string, link: LinkKey, held: Sample, pending: seq<Sample>)
    requires Standing(m, peer, link, held, pending)
    ensures m.store.next == |m.log| + 1
  {
  }

  lemma OneLogged(link: LinkKey, s: Sample)
    requires s.ts > 0
    ensures |Taken(NEW_MEMBER, link, s).log| == 1
  {
    LinkHistory.FirstOffer(s);
  }

  lemma EchoCatches(names: set<string>, x: string, y: string, link: LinkKey, a: Sample, b: Sample)
    requires x in names && y in names && x != y && Clash(a, b)
    ensures var c := Run(names, EchoRun(names, x, y, link, a, b, 2));
            && Echoing(c, x, y, link, MergedWith(b, a), MergedWith(a, b))
            && c.members[x].store.next == 4 && c.members[y].store.next == 3
  {
    hide Run, EchoRun, Standing, Exchanged, MergedWith, Clash;
    ClashTurns(a, b);
    ClashTime(a, b);
    EchoBegins(names, x, y, link, a, b);
    var ab, ba := MergedWith(a, b), MergedWith(b, a);
    SendOne(Run(names, EchoRun(names, x, y, link, a, b, 0)), x, y, link, a, b, [b], a);
    EchoRunStep(names, x, y, link, a, b, 0);
    assert [b] + [ba] == [b, ba];
    SendTwo(Run(names, EchoRun(names, x, y, link, a, b, 1)), y, x, link, ba, a, [], b, ba);
    EchoRunStep(names, x, y, link, a, b, 1);
    assert [] + [ab, ba] == [ab, ba];
  }

  lemma {:induction false} EchoGoesOn(names: set<string>, x: string, y: string, link: LinkKey,
                                      a: Sample, b: Sample, k: nat)
    requires x in names && y in names && x != y && Clash(a, b)
    ensures var c := Run(names, EchoRun(names, x, y, link, a, b, 2 + 2 * k));
            && Echoing(c, x, y, link, MergedWith(b, a), MergedWith(a, b))
            && c.members[x].store.next == 4 + 2 * k && c.members[y].store.next == 3 + 2 * k
    decreases k
  {
    hide Run, EchoRun, Standing, Exchanged, MergedWith, Clash, Turns;
    if k == 0 {
      EchoCatches(names, x, y, link, a, b);
    } else {
      EchoGoesOn(names, x, y, link, a, b, k - 1);
      ClashTurns(a, b);
      TurnsBack(MergedWith(a, b), MergedWith(b, a));
      EchoTurns(Run(names, EchoRun(names, x, y, link, a, b, 2 * k)), x, y, link, MergedWith(b, a), MergedWith(a, b));
      EchoRunStep(names, x, y, link, a, b, 2 * k);
      EchoTurns(Run(names, EchoRun(names, x, y, link, a, b, 2 * k + 1)), y, x, link,
                MergedWith(b, a), MergedWith(a, b));
      EchoRunStep(names, x, y, link, a, b, 2 * k + 1);
    }
  }

  /** Two members that each measure a second of a link once, and differently, accept
      each other's samples without end: past any bound, with nothing else measured
      and nothing pruned. */
  lemma DisagreementEchoes(names: set<string>, x: string, y: string, link: LinkKey, a: Sample, b: Sample, bound: nat)
    returns (actions: seq<Action>)
    requires x in names && y in names && x != y && Clash(a, b)
    ensures |actions| >= 2 && actions[0] == Action.Append(x, link, a) && actions[1] == Action.Append(y, link, b)
    ensures forall i :: 2 <= i < |actions| ==> !actions[i].Append? && !actions[i].Retention?
    ensures x in Run(names, actions).members && Run(names, actions).members[x].store.next > bound
    ensures y in Run(names, actions).members && Run(names, actions).members[y].store.next > bound
  {
    hide Run, EchoRun, Clash;
    actions := EchoRun(names, x, y, link, a, b, 2 + 2 * bound);
    EchoGoesOn(names, x, y, link, a, b, bound);
    OnlyTwoAppends(names, x, y, link, a, b, 2 + 2 * bound);
  }

  // ── Exactly when echoes die out ──────────────────────────────────────────

  /** No local sample is appended twice. */
  ghost predicate Once(actions: seq<Action>) {
    forall i, j :: 0 <= i < j < |actions| && actions[i].Append? && actions[j].Append?
      ==> (actions[i].link, actions[i].s) != (actions[j].link, actions[j].s)
  }

  /** However the cluster runs on these local samples, appending each at most once, no
      member numbers more entries than the bound. */
  ghost predicate Bounded(names: set<string>, locals: set<(LinkKey, Sample)>, bound: nat) {
    forall actions, n :: Once(actions) && Locals(actions) <= locals && n in names
      ==> NextOf(Run(names, actions), n) <= bound
  }

  function NextOf(c: Cluster, n: string): nat { if n in c.members then c.members[n].store.next else 0 }

  lemma FewerFacts(some: set<(LinkKey, Sample)>, all: set<(LinkKey, Sample)>)
    requires some <= all
    ensures Dated(Facts(some)) <= Dated(Facts(all))
    ensures Consistent(Dated(Facts(all))) ==> Consistent(Dated(Facts(some)))
  {
  }

  lemma AgreementBounds(names: set<string>, locals: set<(LinkKey, Sample)>)
    requires Consistent(Dated(Facts(locals)))
    ensures Bounded(names, locals, |Dated(Facts(locals))| + 1)
  {
    hide Consistent, Facts, Dated, Locals, Run, Once;
    forall actions, n | Once(actions) && Locals(actions) <= locals && n in names
      ensures NextOf(Run(names, actions), n) <= |Dated(Facts(locals))| + 1
    {
      FewerFacts(Locals(actions), locals);
      EchoesDieOut(names, actions, n);
      SubsetSize(Dated(Facts(Locals(actions))), Dated(Facts(locals)));
    }
  }

  /** Facts that contradict each other were stated by samples that clash. */
  lemma ClashIn(locals: set<(LinkKey, Sample)>) returns (link: LinkKey, a: Sample, b: Sample)
    requires !Consistent(Dated(Facts(locals)))
    ensures (link, a) in locals && (link, b) in locals && Clash(a, b)
  {
    hide FactsOf, Contradict, Clash;
    var f, g :| f in Dated(Facts(locals)) && g in Dated(Facts(locals)) && Contradict(f, g);
    var p :| p in locals && f in FactsOf(p.0, p.1);
    var q :| q in locals && g in FactsOf(q.0, q.1);
    ContradictionClashes(p.0, p.1, q.0, q.1, f, g);
    link, a, b := p.0, p.1, q.1;
  }

  lemma ContradictionClashes(k: LinkKey, a: Sample, l: LinkKey, b: Sample, f: Fact, g: Fact)
    requires f in FactsOf(k, a) && g in FactsOf(l, b) && Contradict(f, g) && f.ts > 0
    ensures k == l && Clash(a, b)
  {
  }

  /** Clashing local samples exceed every bound. */
  lemma ClashUnbounds(names: set<string>, x: string, y: string, locals: set<(LinkKey, Sample)>, bound: nat)
    requires x in names && y in names && x != y && !Consistent(Dated(Facts(locals)))
    ensures !Bounded(names, locals, bound)
  {
    hide Consistent, Facts, Dated, Clash, Run;
    var link, a, b := ClashIn(locals);
    var actions := DisagreementEchoes(names, x, y, link, a, b, bound);
    ClashDiffers(a, b);
    assert Locals(actions) <= {(link, a), (link, b)};
    assert Once(actions) && NextOf(Run(names, actions), x) > bound;
  }

  /** With two members or more, accepted ingests stay bounded over all runs exactly
      when the local samples of one link and second agree. */
  lemma EchoesDieOutIffLocalsAgree(names: set<string>, x: string, y: string, locals: set<(LinkKey, Sample)>)
    requires x in names && y in names && x != y
    ensures Consistent(Dated(Facts(locals))) <==> exists bound: nat :: Bounded(names, locals, bound)
  {
    hide Consistent, Facts, Dated, Bounded;
    if Consistent(Dated(Facts(locals))) {
      AgreementBounds(names, locals);
    } else {
      forall bound: nat ensures !Bounded(names, locals, bound) {
        ClashUnbounds(names, x, y, locals, bound);
      }
    }
  }

  lemma ClashDiffers(a: Sample, b: Sample)
    requires Clash(a, b)
    ensures a != b
  {
  }
}
