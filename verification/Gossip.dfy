/** Sample replication between the controllers (crates/controller/src/gossip.rs):
    pushes that may be lost, delayed, repeated or answered too late. */
module Gossip {
  import opened Core
  import opened Samples
  import opened Ring
  import opened RingTheorem
  import opened Tsdb
  import opened Replica

  /** How many samples one delta may carry. */
  const DELTA_LIMIT: nat := 2000

  /** One round's request: the entries after `after`, up to `last`. */
  datatype Push = Push(from: string, to: string, after: nat, last: nat, samples: seq<(LinkKey, Sample)>)

  /** `rounds` holds the round a member is waiting on, per peer; `wires` every
      request ever sent, any of which may still arrive; `delivered` those a peer has
      merged and answered. */
  datatype Cluster = Cluster(members: map<string, Member>, rounds: map<(string, string), Push>,
                             wires: set<Push>, delivered: set<Push>)

  datatype Action =
    | Append(at: string, link: LinkKey, s: Sample)
    | Retention(at: string, rawCut: nat, aggCut: nat)
    | Begin(from: string, to: string)
    | Deliver(push: Push)
    | Acked(from: string, to: string)
    | Failed(from: string, to: string)

  function Mark(m: Member, peer: string): nat { if peer in m.sent then m.sent[peer] else 0 }

  function Payload(delta: seq<Entry>): seq<(LinkKey, Sample)> {
    seq(|delta|, i requires 0 <= i < |delta| => (delta[i].link, delta[i].s))
  }

  /** `take_for_peer`: what is newer than the peer's watermark. */
  function TakeForPeer(m: Member, from: string, to: string): Push {
    var after := Mark(m, to);
    var delta := Delta(m.store.recent, after, DELTA_LIMIT);
    Push(from, to, after, LastOf(delta, after), Payload(delta))
  }

  function WithMember(c: Cluster, name: string, m: Member): Cluster {
    c.(members := c.members[name := m])
  }

  /** One step; an action that cannot happen leaves the cluster as it is. */
  function Apply(c: Cluster, a: Action): Cluster {
    match a
    case Append(at, link, s) =>
      if at in c.members then WithMember(c, at, Taken(c.members[at], link, s)) else c
    case Retention(at, rawCut, aggCut) =>
      if at in c.members then WithMember(c, at, Retained(c.members[at], rawCut, aggCut)) else c
    case Begin(from, to) =>
      if from in c.members && to in c.members && from != to && (from, to) !in c.rounds then
        var push := TakeForPeer(c.members[from], from, to);
        c.(rounds := c.rounds[(from, to) := push], wires := c.wires + {push})
      else c
    case Deliver(push) =>
      if push in c.wires && push.to in c.members then
        WithMember(c, push.to, TakenAll(c.members[push.to], push.samples)).(delivered := c.delivered + {push})
      else c
    case Acked(from, to) =>
      if (from, to) in c.rounds && c.rounds[(from, to)] in c.delivered && from in c.members then
        var m := c.members[from];
        WithMember(c, from, m.(sent := m.sent[to := c.rounds[(from, to)].last])).(rounds := c.rounds - {(from, to)})
      else c
    case Failed(from, to) => c.(rounds := c.rounds - {(from, to)})
  }

  function Start(names: set<string>): Cluster {
    Cluster(map n | n in names :: NEW_MEMBER, map[], {}, {})
  }

  function Run(names: set<string>, actions: seq<Action>): Cluster
    decreases |actions|
  {
    if actions == [] then Start(names)
    else Apply(Run(names, actions[..|actions| - 1]), actions[|actions| - 1])
  }

  // ── Nothing below a watermark was missed ─────────────────────────────────

  /** Entries [from, to) of the log, as far as retention still has them, are in `got`. */
  ghost predicate Reached(m: Member, from: int, to: int, got: seq<(LinkKey, Sample)>) {
    && 0 <= from && to <= |m.log|
    && forall i :: from <= i < to && Dropped(m) <= i ==> (m.log[i].link, m.log[i].s) in got
  }

  ghost predicate PushOk(c: Cluster, push: Push) {
    && push.from in c.members && push.to in c.members && push.from != push.to
    && Reached(c.members[push.from], push.after, push.last, push.samples)
    && (push in c.delivered ==>
          forall x :: x in push.samples ==> x in c.members[push.to].offers)
  }

  ghost predicate RoundOk(c: Cluster, from: string, to: string, push: Push) {
    && push in c.wires && push.from == from && push.to == to
    && from in c.members && push.after == Mark(c.members[from], to)
  }

  /** Everything at or below a peer's watermark that retention has kept has been
      offered to that peer. */
  ghost predicate MarkOk(c: Cluster, from: string, to: string)
    requires from in c.members && to in c.members
  {
    Reached(c.members[from], 0, Mark(c.members[from], to), c.members[to].offers)
  }

  ghost predicate DeliveryInv(c: Cluster) {
    && (forall n :: n in c.members ==> LogOk(c.members[n]))
    && (forall a, b :: a in c.members && b in c.members && a != b ==> MarkOk(c, a, b))
    && (forall push :: push in c.wires ==> PushOk(c, push))
    && (forall k :: k in c.rounds ==> RoundOk(c, k.0, k.1, c.rounds[k]))
    && c.delivered <= c.wires
  }

  /** No member lost history or watermarks. */
  ghost predicate Advanced(c: Cluster, c': Cluster) {
    && c.members.Keys == c'.members.Keys
    && forall n :: n in c.members ==> Grew(c.members[n], c'.members[n]) && LogOk(c'.members[n])
  }

  lemma ReachedGrows(m: Member, m': Member, from: int, to: int,
                     got: seq<(LinkKey, Sample)>, got': seq<(LinkKey, Sample)>)
    requires Reached(m, from, to, got) && Grew(m, m')
    requires forall x :: x in got ==> x in got'
    ensures Reached(m', from, to, got')
  {
  }

  lemma GrewSame(m: Member)
    ensures Grew(m, m)
  {
  }

  lemma OffersGrow(m: Member, m': Member)
    requires Grew(m, m')
    ensures forall x :: x in m.offers ==> x in m'.offers
  {
  }

  /** History that only grows keeps every mark and push that did not itself change. */
  lemma MarkStays(c: Cluster, c': Cluster, from: string, to: string)
    requires Advanced(c, c') && from in c.members && to in c.members && MarkOk(c, from, to)
    requires Mark(c'.members[from], to) == Mark(c.members[from], to)
    ensures MarkOk(c', from, to)
  {
  }

  lemma PushStays(c: Cluster, c': Cluster, push: Push)
    requires Advanced(c, c') && PushOk(c, push)
    requires push in c.delivered || push !in c'.delivered
          || (forall x :: x in push.samples ==> x in c'.members[push.to].offers)
    ensures PushOk(c', push)
  {
  }

  /** Steps that only let history grow, whatever they do to one member. */
  lemma HistoryStep(c: Cluster, name: string, m': Member, delivered: set<Push>)
    requires DeliveryInv(c) && name in c.members
    requires Grew(c.members[name], m') && LogOk(m') && m'.sent == c.members[name].sent
    requires c.delivered <= delivered <= c.wires
    requires forall push :: push in delivered && push !in c.delivered
               ==> push.to == name && forall x :: x in push.samples ==> x in m'.offers
    ensures DeliveryInv(WithMember(c, name, m').(delivered := delivered))
  {
    hide Grew, LogOk, MarkOk, PushOk;
    var c' := WithMember(c, name, m').(delivered := delivered);
    forall n | n in c.members ensures Grew(c.members[n], c'.members[n]) && LogOk(c'.members[n]) {
      if n != name {
        GrewSame(c.members[n]);
      }
    }
    forall a, b | a in c'.members && b in c'.members && a != b ensures MarkOk(c', a, b) {
      MarkStays(c, c', a, b);
    }
    forall push | push in c'.wires ensures PushOk(c', push) {
      PushStays(c, c', push);
    }
    forall k | k in c'.rounds ensures RoundOk(c', k.0, k.1, c'.rounds[k]) {
      assert RoundOk(c, k.0, k.1, c.rounds[k]);
    }
  }

  lemma PayloadHolds(delta: seq<Entry>)
    ensures forall e :: e in delta ==> (e.link, e.s) in Payload(delta)
    ensures forall x :: x in Payload(delta) ==> exists e :: e in delta && x == (e.link, e.s)
  {
    forall e | e in delta ensures (e.link, e.s) in Payload(delta) {
      var i :| 0 <= i < |delta| && delta[i] == e;
      assert Payload(delta)[i] == (e.link, e.s);
    }
    forall x | x in Payload(delta) ensures exists e :: e in delta && x == (e.link, e.s) {
      var i :| 0 <= i < |Payload(delta)| && Payload(delta)[i] == x;
      assert delta[i] in delta;
    }
  }

  lemma LogIsNumbered(m: Member)
    requires LogOk(m)
    ensures Numbered(m.store.recent, m.store.next)
    ensures forall i :: Dropped(m) <= i < |m.log| ==> m.log[i] in m.store.recent
    ensures forall e :: e in m.store.recent ==> e in m.log
  {
  }

  /** A round's request carries every kept entry past the watermark up to its last, which
      is the newest unless it holds 2000. */
  lemma TakenPushReaches(m: Member, from: string, to: string)
    requires LogOk(m) && Mark(m, to) <= |m.log|
    ensures var push := TakeForPeer(m, from, to);
            && Reached(m, push.after, push.last, push.samples) && push.after <= push.last
            && |push.samples| <= 2000
            && (|push.samples| < 2000 && Dropped(m) < |m.log| ==> push.last == |m.log|)
  {
    hide Delta, Numbered;
    LogIsNumbered(m);
    var after := Mark(m, to);
    var delta := Delta(m.store.recent, after, DELTA_LIMIT);
    DeltaIsTheRange(m.store.recent, m.store.next, after, DELTA_LIMIT);
    PayloadHolds(delta);
    var push := TakeForPeer(m, from, to);
    forall i | push.after <= i < push.last && Dropped(m) <= i
      ensures (m.log[i].link, m.log[i].s) in push.samples
    {
      assert m.log[i] in delta;
    }
    if |delta| < 2000 && Dropped(m) < |m.log| && after < |m.log| {
      assert m.log[|m.log| - 1] in delta;
    }
  }

  lemma BeginKeepsDelivery(c: Cluster, from: string, to: string)
    requires DeliveryInv(c) && from in c.members && to in c.members && from != to && (from, to) !in c.rounds
    ensures DeliveryInv(Apply(c, Begin(from, to)))
  {
    hide Delta, LogOk, Reached, Payload;
    var push, c' := TakeForPeer(c.members[from], from, to), Apply(c, Begin(from, to));
    assert MarkOk(c, from, to);
    assert Mark(c.members[from], to) <= |c.members[from].log| by { MarkBound(c, from, to); }
    TakenPushReaches(c.members[from], from, to);
    assert PushOk(c, push) by {
      if push in c.delivered {
        assert PushOk(c, push);
      }
    }
    forall p | p in c'.wires ensures PushOk(c', p) {
      assert PushOk(c, p);
    }
    forall a, b | a in c'.members && b in c'.members && a != b ensures MarkOk(c', a, b) {
      assert MarkOk(c, a, b);
    }
    forall k | k in c'.rounds ensures RoundOk(c', k.0, k.1, c'.rounds[k]) {
      if k != (from, to) {
        assert RoundOk(c, k.0, k.1, c.rounds[k]);
      }
    }
  }

  lemma MarkBound(c: Cluster, from: string, to: string)
    requires from in c.members && to in c.members && MarkOk(c, from, to)
    ensures Mark(c.members[from], to) <= |c.members[from].log|
  {
  }

  lemma ReachedJoins(m: Member, a: int, b: int, c: int, got: seq<(LinkKey, Sample)>)
    requires Reached(m, a, b, got) && Reached(m, b, c, got)
    ensures Reached(m, a, c, got)
  {
  }

  lemma AckedKeepsDelivery(c: Cluster, from: string, to: string)
    requires DeliveryInv(c)
    ensures DeliveryInv(Apply(c, Acked(from, to)))
  {
    hide Grew, LogOk, Reached, MarkOk, PushOk;
    var c' := Apply(c, Acked(from, to));
    if c' != c {
      var m, m', push := c.members[from], c'.members[from], c.rounds[(from, to)];
      assert RoundOk(c, from, to, push);
      forall n | n in c.members ensures Grew(c.members[n], c'.members[n]) && LogOk(c'.members[n]) {
        if n == from {
          SentDoesNotMatter(m, m'.sent);
        } else {
          GrewSame(c.members[n]);
        }
      }
      forall a, b | a in c'.members && b in c'.members && a != b ensures MarkOk(c', a, b) {
        if a == from && b == to {
          AckRaisesMark(c, c', from, to, push);
        } else {
          MarkStays(c, c', a, b);
        }
      }
      forall p | p in c'.wires ensures PushOk(c', p) {
        PushStays(c, c', p);
      }
      forall k | k in c'.rounds ensures RoundOk(c', k.0, k.1, c'.rounds[k]) {
        assert RoundOk(c, k.0, k.1, c.rounds[k]);
      }
    }
  }

  lemma SentDoesNotMatter(m: Member, sent: map<string, nat>)
    requires LogOk(m)
    ensures LogOk(m.(sent := sent)) && Grew(m, m.(sent := sent))
  {
  }

  lemma AckRaisesMark(c: Cluster, c': Cluster, from: string, to: string, push: Push)
    requires from in c.members && to in c.members && from != to && Advanced(c, c')
    requires MarkOk(c, from, to) && PushOk(c, push) && RoundOk(c, from, to, push) && push in c.delivered
    requires Mark(c'.members[from], to) == push.last
    ensures MarkOk(c', from, to)
  {
    hide Grew, LogOk, Reached;
    var m, m', got := c.members[from], c'.members[from], c'.members[to].offers;
    OffersGrow(c.members[to], c'.members[to]);
    ReachedGrows(m, m', 0, push.after, c.members[to].offers, got);
    ReachedGrows(m, m', push.after, push.last, push.samples, got);
    ReachedJoins(m', 0, push.after, push.last, got);
  }

  lemma ApplyKeepsDelivery(c: Cluster, a: Action)
    requires DeliveryInv(c)
    ensures DeliveryInv(Apply(c, a))
  {
    hide Grew, LogOk, MarkOk, PushOk, RoundOk, Taken, TakenAll, Retained;
    match a
    case Append(at, link, s) =>
      if at in c.members {
        TakenKeepsLog(c.members[at], link, s);
        HistoryStep(c, at, Taken(c.members[at], link, s), c.delivered);
        assert Apply(c, a) == WithMember(c, at, Taken(c.members[at], link, s)).(delivered := c.delivered);
      }
    case Retention(at, rawCut, aggCut) =>
      if at in c.members {
        RetainedKeepsLog(c.members[at], rawCut, aggCut);
        RetainedKeepsSent(c.members[at], rawCut, aggCut);
        HistoryStep(c, at, Retained(c.members[at], rawCut, aggCut), c.delivered);
        assert Apply(c, a) == WithMember(c, at, Retained(c.members[at], rawCut, aggCut)).(delivered := c.delivered);
      }
    case Begin(from, to) =>
      if Apply(c, a) != c {
        BeginKeepsDelivery(c, from, to);
      }
    case Deliver(push) =>
      if push in c.wires && push.to in c.members {
        TakenAllKeepsLog(c.members[push.to], push.samples);
        HistoryStep(c, push.to, TakenAll(c.members[push.to], push.samples), c.delivered + {push});
      }
    case Acked(from, to) =>
      AckedKeepsDelivery(c, from, to);
    case Failed(from, to) =>
      FailedKeepsDelivery(c, from, to);
  }

  lemma RetainedKeepsSent(m: Member, rawCut: nat, aggCut: nat)
    ensures Retained(m, rawCut, aggCut).sent == m.sent
  {
  }

  lemma FailedKeepsDelivery(c: Cluster, from: string, to: string)
    requires DeliveryInv(c)
    ensures DeliveryInv(Apply(c, Failed(from, to)))
  {
    hide LogOk, Reached;
    var c' := Apply(c, Failed(from, to));
    forall a, b | a in c'.members && b in c'.members && a != b ensures MarkOk(c', a, b) {
      assert MarkOk(c, a, b);
    }
    forall p | p in c'.wires ensures PushOk(c', p) {
      assert PushOk(c, p);
    }
    forall k | k in c'.rounds ensures RoundOk(c', k.0, k.1, c'.rounds[k]) {
      assert RoundOk(c, k.0, k.1, c.rounds[k]);
    }
  }

  lemma StartDelivers(names: set<string>)
    ensures DeliveryInv(Start(names))
  {
  }

  lemma {:induction false} RunDelivers(names: set<string>, actions: seq<Action>)
    ensures DeliveryInv(Run(names, actions))
    ensures Run(names, actions).members.Keys == names
    decreases |actions|
  {
    hide DeliveryInv, Apply;
    if actions == [] {
      StartDelivers(names);
    } else {
      RunDelivers(names, actions[..|actions| - 1]);
      ApplyKeepsDelivery(Run(names, actions[..|actions| - 1]), actions[|actions| - 1]);
      ApplyKeepsMembers(Run(names, actions[..|actions| - 1]), actions[|actions| - 1]);
    }
  }

  lemma ApplyKeepsMembers(c: Cluster, a: Action)
    ensures Apply(c, a).members.Keys == c.members.Keys
  {
    hide Taken, TakenAll, Retained, TakeForPeer;
  }

  /** In every run, whatever is lost, late or repeated, each entry at or below a
      peer's watermark has been offered to that peer, unless retention dropped it. */
  lemma WatermarkMeansOffered(names: set<string>, actions: seq<Action>, a: string, b: string, i: nat)
    requires a in names && b in names && a != b
    ensures var c := Run(names, actions);
            && a in c.members && b in c.members
            && (i < Mark(c.members[a], b) && Dropped(c.members[a]) <= i ==>
                  && i < |c.members[a].log| && c.members[a].log[i].num == i + 1
                  && (c.members[a].log[i].link, c.members[a].log[i].s) in c.members[b].offers)
  {
    hide Run;
    RunDelivers(names, actions);
    assert MarkOk(Run(names, actions), a, b);
  }

  /** A round that succeeds moves the watermark past something, if anything newer
      is still kept. */
  lemma RoundMakesProgress(m: Member, from: string, to: string)
    requires LogOk(m) && Mark(m, to) < |m.log| && Dropped(m) < |m.log|
    ensures Mark(m, to) < TakeForPeer(m, from, to).last
  {
    hide Delta, Numbered;
    LogIsNumbered(m);
    var newest := m.log[|m.log| - 1];
    assert newest in m.store.recent && Mark(m, to) < newest.num;
    DeltaIsTheRange(m.store.recent, m.store.next, Mark(m, to), DELTA_LIMIT);
  }

  // ── Accepted ingests are bounded ─────────────────────────────────────────

  /** The samples the members measured or were posted themselves. */
  function Locals(actions: seq<Action>): set<(LinkKey, Sample)> {
    set i | 0 <= i < |actions| && actions[i].Append? :: (actions[i].link, actions[i].s)
  }

  ghost predicate Known(samples: seq<(LinkKey, Sample)>, facts: set<Fact>) {
    forall x :: x in samples ==> FactsOf(x.0, x.1) <= facts
  }

  /** Nothing anywhere states more than the local samples did. */
  ghost predicate FactInv(c: Cluster, facts: set<Fact>) {
    && (forall n :: n in c.members ==> MemberInv(c.members[n], Dated(facts)) && Known(c.members[n].offers, facts))
    && (forall push :: push in c.wires ==> Known(push.samples, facts))
  }

  lemma {:induction false} TakenAllOffers(m: Member, delta: seq<(LinkKey, Sample)>)
    ensures TakenAll(m, delta).offers == m.offers + delta
    decreases |delta|
  {
    if delta == [] {
      assert m.offers + delta == m.offers;
    } else {
      TakenAllOffers(m, delta[..|delta| - 1]);
      assert delta == delta[..|delta| - 1] + [delta[|delta| - 1]];
    }
  }

  lemma DeltaIsKnown(m: Member, from: string, to: string, facts: set<Fact>)
    requires MemberInv(m, Dated(facts))
    ensures Known(TakeForPeer(m, from, to).samples, facts)
  {
    hide FactsOf, LinkInv, StartAfter;
    var delta := Delta(m.store.recent, Mark(m, to), DELTA_LIMIT);
    PayloadHolds(delta);
    forall x | x in Payload(delta) ensures FactsOf(x.0, x.1) <= facts {
      var e :| e in delta && x == (e.link, e.s);
      assert e in m.log;
      assert FactsOf(e.link, e.s) <= LogFacts(m.log);
    }
  }

  lemma ApplyKeepsFacts(c: Cluster, a: Action, facts: set<Fact>)
    requires FactInv(c, facts) && Consistent(Dated(facts))
    requires a.Append? ==> FactsOf(a.link, a.s) <= facts
    ensures FactInv(Apply(c, a), facts)
  {
    hide Consistent, FactsOf, Dated, MemberInv, TakeForPeer, Retained;
    match a
    case Append(at, link, s) =>
      if at in c.members {
        if s.ts > 0 {
          DatedFacts(link, s, facts);
        }
        TakenKeepsInv(c.members[at], link, s, Dated(facts));
      }
    case Retention(at, rawCut, aggCut) =>
      if at in c.members {
        RetainedKeepsInv(c.members[at], rawCut, aggCut, Dated(facts));
        RetainedKeepsOffers(c.members[at], rawCut, aggCut);
      }
    case Begin(from, to) =>
      if from in c.members {
        DeltaIsKnown(c.members[from], from, to, facts);
      }
    case Deliver(push) =>
      if push in c.wires && push.to in c.members {
        forall x | x in push.samples && x.1.ts > 0 ensures FactsOf(x.0, x.1) <= Dated(facts) {
          DatedFacts(x.0, x.1, facts);
        }
        TakenAllKeepsInv(c.members[push.to], push.samples, Dated(facts));
        TakenAllOffers(c.members[push.to], push.samples);
      }
    case Acked(from, to) =>
      if from in c.members && (from, to) in c.rounds {
        SentKeepsInv(c.members[from], c.members[from].sent[to := c.rounds[(from, to)].last], Dated(facts));
      }
    case Failed(from, to) =>
  }

  lemma RetainedKeepsOffers(m: Member, rawCut: nat, aggCut: nat)
    ensures Retained(m, rawCut, aggCut).offers == m.offers
  {
  }

  lemma SentKeepsInv(m: Member, sent: map<string, nat>, facts: set<Fact>)
    requires MemberInv(m, facts)
    ensures MemberInv(m.(sent := sent), facts)
  {
  }

  lemma {:induction false} RunKeepsFacts(names: set<string>, actions: seq<Action>, facts: set<Fact>)
    requires Consistent(Dated(facts))
    requires forall i :: 0 <= i < |actions| && actions[i].Append? ==> FactsOf(actions[i].link, actions[i].s) <= facts
    ensures FactInv(Run(names, actions), facts)
    decreases |actions|
  {
    hide Consistent, FactsOf, Apply, MemberInv;
    if actions == [] {
      NewMemberInv(Dated(facts));
    } else {
      var front := actions[..|actions| - 1];
      assert forall i :: 0 <= i < |front| ==> front[i] == actions[i];
      RunKeepsFacts(names, front, facts);
      ApplyKeepsFacts(Run(names, front), actions[|actions| - 1], facts);
    }
  }

  lemma LocalsAreFacts(actions: seq<Action>)
    ensures forall i :: 0 <= i < |actions| && actions[i].Append?
              ==> FactsOf(actions[i].link, actions[i].s) <= Facts(Locals(actions))
  {
    hide FactsOf;
    forall i | 0 <= i < |actions| && actions[i].Append?
      ensures FactsOf(actions[i].link, actions[i].s) <= Facts(Locals(actions))
    {
      assert (actions[i].link, actions[i].s) in Locals(actions);
    }
  }

  /** When local samples of one link and second agree, no member ever accepts more
      ingests than the local samples state facts: echoes die out, in any run. */
  lemma EchoesDieOut(names: set<string>, actions: seq<Action>, n: string)
    requires n in names && Consistent(Dated(Facts(Locals(actions))))
    ensures n in Run(names, actions).members
    ensures Run(names, actions).members[n].store.next - 1 <= |Dated(Facts(Locals(actions)))|
  {
    hide Run, Consistent, FactsOf, Facts, Dated, Locals, MemberInv, DeliveryInv;
    var facts := Facts(Locals(actions));
    RunDelivers(names, actions);
    LocalsAreFacts(actions);
    RunKeepsFacts(names, actions, facts);
    LogIsBounded(Run(names, actions).members[n], Dated(facts));
  }

  // ── Convergence ──────────────────────────────────────────────────────────

  function OffersFor(offers: seq<(LinkKey, Sample)>, link: LinkKey): seq<Sample>
    decreases |offers|
  {
    if offers == [] then []
    else
      var (k, s) := offers[|offers| - 1];
      OffersFor(offers[..|offers| - 1], link) + (if k == link then [s] else [])
  }

  /** A member that never pruned: its rings are what its offers make of them. */
  ghost predicate Unpruned(m: Member) {
    && Dropped(m) == 0
    && forall link :: LinkOf(m.store, link).ring == OfferAll(OffersFor(m.offers, link))
  }

  lemma TakenStaysUnpruned(m: Member, link: LinkKey, s: Sample)
    requires Unpruned(m)
    ensures Unpruned(Taken(m, link, s))
  {
    hide Offer, LinkOf, Ingested;
    var m' := Taken(m, link, s);
    assert Dropped(m') == 0 by { TakenDrops(m, link, s); }
    forall k ensures LinkOf(m'.store, k).ring == OfferAll(OffersFor(m'.offers, k)) {
      IngestLink(m.store, link, s, k);
      AcceptRing(LinkOf(m.store, link), s);
      assert m'.offers[..|m.offers|] == m.offers;
      var before := OffersFor(m.offers, k);
      if k == link {
        assert (before + [s])[..|before|] == before;
      } else {
        assert before + [] == before;
      }
    }
  }

  lemma TakenDrops(m: Member, link: LinkKey, s: Sample)
    ensures Dropped(Taken(m, link, s)) == Dropped(m)
  {
  }

  lemma {:induction false} TakenAllStaysUnpruned(m: Member, delta: seq<(LinkKey, Sample)>)
    requires Unpruned(m)
    ensures Unpruned(TakenAll(m, delta))
    decreases |delta|
  {
    hide Unpruned, Taken;
    if delta != [] {
      TakenAllStaysUnpruned(m, delta[..|delta| - 1]);
      TakenStaysUnpruned(TakenAll(m, delta[..|delta| - 1]), delta[|delta| - 1].0, delta[|delta| - 1].1);
    }
  }

  lemma {:induction false} RunStaysUnpruned(names: set<string>, actions: seq<Action>)
    requires forall i :: 0 <= i < |actions| ==> !actions[i].Retention?
    ensures forall n :: n in Run(names, actions).members ==> Unpruned(Run(names, actions).members[n])
    decreases |actions|
  {
    if actions == [] {
      assert Unpruned(NEW_MEMBER);
    } else {
      hide Unpruned, Taken, TakenAll, TakeForPeer;
      var front, a := actions[..|actions| - 1], actions[|actions| - 1];
      assert forall i :: 0 <= i < |front| ==> front[i] == actions[i];
      RunStaysUnpruned(names, front);
      var c := Run(names, front);
      match a
      case Append(at, link, s) =>
        if at in c.members {
          TakenStaysUnpruned(c.members[at], link, s);
        }
      case Deliver(push) =>
        if push.to in c.members {
          TakenAllStaysUnpruned(c.members[push.to], push.samples);
        }
      case Acked(from, to) =>
        if from in c.members && (from, to) in c.rounds {
          SentKeepsUnpruned(c.members[from], c.members[from].sent[to := c.rounds[(from, to)].last]);
        }
      case Begin(_, _) =>
      case Failed(_, _) =>
      case Retention(_, _, _) => assert false;
    }
  }

  lemma SentKeepsUnpruned(m: Member, sent: map<string, nat>)
    requires Unpruned(m)
    ensures Unpruned(m.(sent := sent))
  {
  }

  lemma {:induction false} OfferedIsFor(offers: seq<(LinkKey, Sample)>, link: LinkKey)
    ensures forall s :: s in OffersFor(offers, link) <==> (link, s) in offers
    decreases |offers|
  {
    if offers != [] {
      var front, last := offers[..|offers| - 1], offers[|offers| - 1];
      OfferedIsFor(front, link);
      assert offers == front + [last];
      forall s ensures s in OffersFor(offers, link) <==> (link, s) in offers {
        assert s in OffersFor(offers, link) <==> s in OffersFor(front, link) || last == (link, s);
      }
    }
  }

  lemma KnownOffersAgree(offers: seq<(LinkKey, Sample)>, link: LinkKey, facts: set<Fact>)
    requires Known(offers, facts) && Consistent(facts)
    ensures AllAgree(OffersFor(offers, link))
  {
    hide Consistent;
    OfferedIsFor(offers, link);
    forall a, b | a in OffersFor(offers, link) && b in OffersFor(offers, link) ensures Agree(a, b) {
      assert FactsOf(link, a) <= facts && FactsOf(link, b) <= facts by {
        assert (link, a) in offers && (link, b) in offers;
      }
      FactsAgree(link, a, b, facts);
    }
  }

  lemma FactsAgree(link: LinkKey, a: Sample, b: Sample, facts: set<Fact>)
    requires FactsOf(link, a) <= facts && FactsOf(link, b) <= facts && Consistent(facts)
    ensures Agree(a, b)
  {
    if a.ts == b.ts {
      forall d | d in a.dims && d in b.dims ensures a.dims[d] == b.dims[d] {
        assert !Contradict(DimIs(link, a.ts, d, a.dims[d]), DimIs(link, b.ts, d, b.dims[d]));
      }
      forall m | m in a.mark && m in b.mark ensures a.mark[m] == b.mark[m] {
        assert !Contradict(MarkIs(link, a.ts, m, a.mark[m]), MarkIs(link, b.ts, m, b.mark[m]));
      }
    }
  }

  /** Whatever a caught-up member's ring holds has been offered to its peer. */
  lemma CaughtUpOffers(m: Member, p: Member, link: LinkKey, facts: set<Fact>)
    requires MemberInv(m, facts) && Dropped(m) == 0 && Reached(m, 0, |m.log|, p.offers)
    ensures forall x :: x in LinkOf(m.store, link).ring.samples ==> x in OffersFor(p.offers, link)
  {
    hide FactsOf, LogFacts, RingOk, LinkOf, Covered, LogOk, OffersFor;
    OfferedIsFor(p.offers, link);
    assert LinkInv(LinkOf(m.store, link).ring, m.log, link, facts);
    forall x | x in LinkOf(m.store, link).ring.samples ensures (link, x) in p.offers {
      var e :| e in m.log && e.link == link && e.s == x;
      var i :| 0 <= i < |m.log| && m.log[i] == e;
    }
  }

  /** Two newest-second sets that were each offered to the other side are equal,
      full or not. */
  lemma MutualNewest(s: set<nat>, a: set<nat>, t: set<nat>, b: set<nat>, cap: nat)
    requires RingTheorem.IsNewest(s, a, cap) && RingTheorem.IsNewest(t, b, cap)
    requires a <= t && b <= s
    ensures a <= b
  {
    forall x | x in a ensures x in b {
      if x !in b {
        SubsetSize(b + {x}, t);
        forall y | y in b ensures y in a {
          assert x < y;
        }
        SubsetSize(b + {x}, a);
      }
    }
  }

  lemma MutualJoins(a: seq<Sample>, x: Sample, b: seq<Sample>, y: Sample)
    requires RingTheorem.IsJoin(a, x) && RingTheorem.IsJoin(b, y) && x.ts == y.ts
    requires x in b && y in a
    ensures x == y
  {
    hide RingTheorem.IsJoin;
    JoinCovers(b, y, x);
    JoinCovers(a, x, y);
    CoversBothWays(x, y);
  }

  lemma JoinCovers(offers: seq<Sample>, x: Sample, s: Sample)
    requires RingTheorem.IsJoin(offers, x) && s in offers && s.ts == x.ts
    ensures RingTheorem.Covers(x, s)
  {
  }

  lemma CoversBothWays(x: Sample, y: Sample)
    requires RingTheorem.Covers(x, y) && RingTheorem.Covers(y, x) && x.ts == y.ts
    ensures x == y
  {
  }

  /** Rings each of whose samples was offered to the other are equal. */
  lemma MutualRings(a: seq<Sample>, b: seq<Sample>)
    requires AllAgree(a) && AllAgree(b)
    requires forall x :: x in OfferAll(a).samples ==> x in b
    requires forall y :: y in OfferAll(b).samples ==> y in a
    ensures OfferAll(a).samples == OfferAll(b).samples
  {
    RingIsNewestSeconds(a);
    RingIsNewestSeconds(b);
    hide OfferAll, AllAgree, IsJoin, RingTheorem.IsNewest;
    var p, q := OfferAll(a).samples, OfferAll(b).samples;
    RingTimesOffered(a, b);
    RingTimesOffered(b, a);
    MutualNewest(OfferedTimes(a), Times(p), OfferedTimes(b), Times(q), RAW_RING_CAP);
    MutualNewest(OfferedTimes(b), Times(q), OfferedTimes(a), Times(p), RAW_RING_CAP);
    hide OfferedTimes, Times, RingOk;
    MutualMembers(a, b, p, q);
    MutualMembers(b, a, q, p);
    SortedIsUnique(p, q);
  }

  lemma RingTimesOffered(a: seq<Sample>, b: seq<Sample>)
    requires RingOk(OfferAll(a))
    requires forall x :: x in OfferAll(a).samples ==> x in b
    ensures Times(OfferAll(a).samples) <= OfferedTimes(b)
  {
    hide OfferAll, Times, OfferedTimes;
    TimesAreMembers(OfferAll(a).samples);
    OfferedTimesAreMembers(b);
    forall t | t in Times(OfferAll(a).samples) ensures t in OfferedTimes(b) {
      var x :| x in OfferAll(a).samples && x.ts == t;
      OldestAndFloor(OfferAll(a), x);
    }
  }

  lemma MutualMembers(a: seq<Sample>, b: seq<Sample>, p: seq<Sample>, q: seq<Sample>)
    requires Times(p) <= Times(q)
    requires forall x :: x in p ==> x in b && RingTheorem.IsJoin(a, x)
    requires forall y :: y in q ==> y in a && RingTheorem.IsJoin(b, y)
    ensures forall x :: x in p ==> x in q
  {
    hide IsJoin, Times;
    TimesAreMembers(p);
    TimesAreMembers(q);
    forall x | x in p ensures x in q {
      assert x.ts in Times(q);
      var y :| y in q && y.ts == x.ts;
      MutualJoins(a, x, b, y);
    }
  }

  /** Two members whose watermarks for each other are caught up hold equal rings, in
      any run without pruning whose local samples agree. */
  lemma CaughtUpMembersAgree(names: set<string>, actions: seq<Action>, a: string, b: string, link: LinkKey)
    requires a in names && b in names && a != b && Consistent(Facts(Locals(actions)))
    requires forall i :: 0 <= i < |actions| ==> !actions[i].Retention?
    requires a in Run(names, actions).members && b in Run(names, actions).members
    requires var (m, p) := (Run(names, actions).members[a], Run(names, actions).members[b]);
             Mark(m, b) == m.store.next - 1 && Mark(p, a) == p.store.next - 1
    ensures LinkOf(Run(names, actions).members[a].store, link).ring.samples
         == LinkOf(Run(names, actions).members[b].store, link).ring.samples
  {
    hide Consistent, Facts, Dated, Locals, MemberInv, LinkOf, Reached, AllAgree, Known, LogOk;
    var facts, c := Facts(Locals(actions)), Run(names, actions);
    RunDelivers(names, actions);
    LocalsAreFacts(actions);
    DatedIsConsistent(facts);
    RunKeepsFacts(names, actions, facts);
    RunStaysUnpruned(names, actions);
    hide Run;
    var m, p := c.members[a], c.members[b];
    assert MarkOk(c, a, b) && MarkOk(c, b, a);
    NextAfterLog(m);
    NextAfterLog(p);
    CaughtUpOffers(m, p, link, Dated(facts));
    CaughtUpOffers(p, m, link, Dated(facts));
    KnownOffersAgree(m.offers, link, facts);
    KnownOffersAgree(p.offers, link, facts);
    MutualRings(OffersFor(m.offers, link), OffersFor(p.offers, link));
  }

  lemma NextAfterLog(m: Member)
    requires LogOk(m)
    ensures m.store.next == |m.log| + 1
  {
  }
}
