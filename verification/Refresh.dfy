/** The agent's refresh against the cost commands it may overlap
    (crates/agent/src/agent.rs, `refresh` and the apply arm of `execute`): a cost is
    put back as it was wanted when the refresh looked, and BIRD takes a command's cost
    before the agent notes it as wanted. */
module Refresh {
  import opened Core

  /** A managed tunnel as discovered: its cost is what BIRD was read to have. */
  datatype Link = Link(iface: string, to: string, cost: Option<nat>)

  predicate Knows(links: seq<Link>, iface: string) {
    exists i :: 0 <= i < |links| && links[i].iface == iface
  }

  predicate DistinctLinks(links: seq<Link>) {
    forall i, j :: 0 <= i < j < |links| ==> links[i].iface != links[j].iface
  }

  /** `desired` is the cost last noted as applied per interface, `bird` what BIRD has;
      `todo` are the costs a refresh still has to put back, `taken` those of commands
      BIRD took and the agent has yet to note. */
  datatype Costs = Costs(links: seq<Link>, desired: map<string, nat>, bird: map<string, nat>,
                         todo: seq<(string, nat)>, taken: map<string, nat>)

  function Get(m: map<string, nat>, f: string): Option<nat> { if f in m then Some(m[f]) else None }

  datatype Event =
    | Take(iface: string, cost: nat)
    | Note(iface: string)
    | Begin(found: seq<Link>)
    | Redo(ok: bool)
    | Drift(iface: string, cost: nat)

  predicate Drifted(l: Link, desired: map<string, nat>) {
    l.iface in desired && l.cost.Some? && l.cost.value != desired[l.iface]
  }

  /** The costs to put back, in the order of the links. */
  function Drifts(links: seq<Link>, desired: map<string, nat>): seq<(string, nat)> {
    if links == [] then []
    else
      var l := links[|links| - 1];
      Drifts(links[..|links| - 1], desired) + (if Drifted(l, desired) then [(l.iface, desired[l.iface])] else [])
  }

  function Kept(desired: map<string, nat>, links: seq<Link>): map<string, nat> {
    map f | f in desired && Knows(links, f) :: desired[f]
  }

  /** One step; an event that cannot happen leaves the costs as they are. One command
      per interface is under way at a time, and one refresh. */
  function After(m: Costs, e: Event): Costs {
    match e
    case Take(f, cost) =>
      if Knows(m.links, f) && f !in m.taken then m.(bird := m.bird[f := cost], taken := m.taken[f := cost]) else m
    case Note(f) =>
      if f in m.taken then m.(desired := m.desired[f := m.taken[f]], taken := m.taken - {f}) else m
    case Begin(found) =>
      if m.todo == [] && DistinctLinks(found) then
        var desired := Kept(m.desired, found);
        m.(links := found, desired := desired, todo := Drifts(found, desired))
      else m
    case Redo(ok) =>
      if m.todo == [] then m
      else
        var (f, want) := m.todo[0];
        m.(todo := m.todo[1..], bird := if ok then m.bird[f := want] else m.bird)
    case Drift(f, cost) => m.(bird := m.bird[f := cost])
  }

  function AfterAll(m: Costs, events: seq<Event>): Costs
    decreases |events|
  {
    if events == [] then m else After(AfterAll(m, events[..|events| - 1]), events[|events| - 1])
  }

  // ── What must hold for a cost to end in place ────────────────────────────

  /** The cost the agent wants, or will once it has noted it. */
  function Wanted(m: Costs, f: string): Option<nat> {
    if f in m.taken then Some(m.taken[f]) else Get(m.desired, f)
  }

  predicate InTodo(todo: seq<(string, nat)>, f: string) { exists i :: 0 <= i < |todo| && todo[i].0 == f }

  predicate Waiting(m: Costs, f: string) { InTodo(m.todo, f) }

  predicate HasDrift(links: seq<Link>, desired: map<string, nat>, f: string) {
    exists i :: 0 <= i < |links| && links[i].iface == f && Drifted(links[i], desired)
  }

  predicate TodoOk(m: Costs) {
    forall i, j :: 0 <= i < j < |m.todo| ==> m.todo[i].0 != m.todo[j].0
  }

  /** What the refresh will put back is what is wanted, and without it BIRD has that. */
  ghost predicate Fine(m: Costs, f: string) {
    Wanted(m, f).Some? ==>
      && (forall i :: 0 <= i < |m.todo| && m.todo[i].0 == f ==> Some(m.todo[i].1) == Wanted(m, f))
      && (!Waiting(m, f) ==> Get(m.bird, f) == Wanted(m, f))
  }

  /** Nothing under way. */
  predicate AtRest(m: Costs) { m.todo == [] && m.taken == map[] }

  predicate InPlace(m: Costs, f: string) { f in m.desired ==> Get(m.bird, f) == Some(m.desired[f]) }

  /** The steps after which a cost that was fine is not: a command that BIRD takes while
      the refresh waits to put another cost back; a refresh that looks between a
      command's being taken and its being noted, and finds the noted cost gone; a cost
      BIRD will not take back, and drift. */
  ghost predicate Disturbs(m: Costs, e: Event, f: string) {
    match e
    case Take(g, cost) =>
      && g == f && Knows(m.links, f) && f !in m.taken
      && exists i :: 0 <= i < |m.todo| && m.todo[i].0 == f && m.todo[i].1 != cost
    case Begin(found) =>
      && m.todo == [] && DistinctLinks(found) && f in m.taken && f in m.desired && m.desired[f] != m.taken[f]
      && HasDrift(found, m.desired, f)
    case Redo(ok) =>
      && !ok && m.todo != [] && m.todo[0].0 == f
      && Wanted(m, f).Some? && Get(m.bird, f) != Wanted(m, f)
    case Drift(g, cost) =>
      g == f && !Waiting(m, f) && Wanted(m, f).Some? && Wanted(m, f) != Some(cost)
    case Note(_) => false
  }

  lemma {:induction false} DriftsOf(links: seq<Link>, desired: map<string, nat>, f: string)
    ensures InTodo(Drifts(links, desired), f) <==> HasDrift(links, desired, f)
    ensures forall i :: 0 <= i < |Drifts(links, desired)| && Drifts(links, desired)[i].0 == f ==>
              f in desired && Drifts(links, desired)[i].1 == desired[f]
    decreases |links|
  {
    if links != [] {
      var k := |links| - 1;
      DriftsOf(links[..k], desired, f);
      var more := if Drifted(links[k], desired) then [(links[k].iface, desired[links[k].iface])] else [];
      TodoMore(Drifts(links[..k], desired), more, f);
      DriftMore(links, desired, f);
    }
  }

  lemma TodoMore(todo: seq<(string, nat)>, more: seq<(string, nat)>, f: string)
    requires |more| <= 1
    ensures InTodo(todo + more, f) <==> InTodo(todo, f) || (more != [] && more[0].0 == f)
  {
    var all := todo + more;
    assert forall i :: 0 <= i < |todo| ==> all[i] == todo[i];
    if more != [] {
      assert all[|todo|] == more[0];
    }
  }

  lemma DriftMore(links: seq<Link>, desired: map<string, nat>, f: string)
    requires links != []
    ensures var k := |links| - 1;
            HasDrift(links, desired, f) == (HasDrift(links[..k], desired, f)
                                            || (links[k].iface == f && Drifted(links[k], desired)))
  {
    var k := |links| - 1;
    assert forall i :: 0 <= i < k ==> links[..k][i] == links[i];
    if HasDrift(links[..k], desired, f) {
      var i :| 0 <= i < k && links[..k][i].iface == f && Drifted(links[..k][i], desired);
      assert links[i].iface == f;
    }
  }

  lemma {:induction false} DriftsApart(links: seq<Link>, desired: map<string, nat>)
    requires DistinctLinks(links)
    ensures forall i, j :: 0 <= i < j < |Drifts(links, desired)| ==>
              Drifts(links, desired)[i].0 != Drifts(links, desired)[j].0
    decreases |links|
  {
    if links != [] {
      var k := |links| - 1;
      DriftsApart(links[..k], desired);
      DriftsOf(links[..k], desired, links[k].iface);
      assert !HasDrift(links[..k], desired, links[k].iface);
    }
  }

  /** A step keeps a cost fine exactly when it does not disturb it. */
  lemma FineIffUndisturbed(m: Costs, e: Event, f: string)
    requires TodoOk(m) && Fine(m, f)
    ensures TodoOk(After(m, e))
    ensures Fine(After(m, e), f) <==> !Disturbs(m, e, f)
  {
    var m' := After(m, e);
    match e
    case Take(g, cost) =>
    case Note(g) =>
    case Begin(found) =>
      if m.todo == [] && DistinctLinks(found) {
        BeginFine(m, found, f);
      }
    case Redo(ok) =>
      if m.todo != [] {
        RedoFine(m, ok, f);
      }
    case Drift(g, cost) =>
  }

  lemma BeginFine(m: Costs, found: seq<Link>, f: string)
    requires m.todo == [] && DistinctLinks(found) && Fine(m, f)
    ensures TodoOk(After(m, Begin(found)))
    ensures Fine(After(m, Begin(found)), f) <==> !Disturbs(m, Begin(found), f)
  {
    var desired := Kept(m.desired, found);
    DriftsApart(found, desired);
    DriftsOf(found, desired, f);
    DriftsKept(found, m.desired, f);
    hide Drifts, HasDrift, DistinctLinks, Kept;
    assert f in desired ==> f in m.desired && desired[f] == m.desired[f] by { KeptSome(m.desired, found, f); }
  }

  lemma KeptSome(desired: map<string, nat>, found: seq<Link>, f: string)
    ensures f in Kept(desired, found) <==> f in desired && Knows(found, f)
    ensures f in Kept(desired, found) ==> Kept(desired, found)[f] == desired[f]
  {
  }

  lemma DriftsKept(found: seq<Link>, desired: map<string, nat>, f: string)
    ensures HasDrift(found, Kept(desired, found), f) <==> HasDrift(found, desired, f)
  {
    forall i | 0 <= i < |found| ensures Drifted(found[i], Kept(desired, found)) <==> Drifted(found[i], desired) {
      assert Knows(found, found[i].iface);
    }
  }

  lemma RedoFine(m: Costs, ok: bool, f: string)
    requires TodoOk(m) && m.todo != [] && Fine(m, f)
    ensures TodoOk(After(m, Redo(ok)))
    ensures Fine(After(m, Redo(ok)), f) <==> !Disturbs(m, Redo(ok), f)
  {
    var rest := m.todo[1..];
    assert forall i :: 0 <= i < |rest| ==> rest[i] == m.todo[i + 1];
    if m.todo[0].0 != f && Waiting(m, f) {
      var i :| 0 <= i < |m.todo| && m.todo[i].0 == f;
      assert rest[i - 1].0 == f;
    }
  }

  /** A refresh that reads an interface truly, no command of it under way, makes its
      cost fine, whatever BIRD had drifted to. */
  lemma RefreshRepairs(m: Costs, found: seq<Link>, f: string, i: nat)
    requires m.todo == [] && DistinctLinks(found) && f in m.desired && f !in m.taken
    requires i < |found| && found[i].iface == f && found[i].cost.Some? && found[i].cost == Get(m.bird, f)
    ensures Fine(After(m, Begin(found)), f)
  {
    DriftsOf(found, Kept(m.desired, found), f);
    DriftsKept(found, m.desired, f);
    KeptSome(m.desired, found, f);
    assert Knows(found, f);
    assert !HasDrift(found, m.desired, f) ==> !Drifted(found[i], m.desired);
    hide Drifts, HasDrift, DistinctLinks, Kept;
  }

  // ── Whole runs ───────────────────────────────────────────────────────────

  ghost predicate Undisturbed(m: Costs, events: seq<Event>, f: string)
    decreases |events|
  {
    events != [] ==>
      var front := events[..|events| - 1];
      Undisturbed(m, front, f) && !Disturbs(AfterAll(m, front), events[|events| - 1], f)
  }

  lemma {:induction false} RunKeepsFine(m: Costs, events: seq<Event>, f: string)
    requires TodoOk(m) && Fine(m, f) && Undisturbed(m, events, f)
    ensures TodoOk(AfterAll(m, events)) && Fine(AfterAll(m, events), f)
    decreases |events|
  {
    hide After, Fine, Disturbs, TodoOk;
    if events != [] {
      var front := events[..|events| - 1];
      RunKeepsFine(m, front, f);
      FineIffUndisturbed(AfterAll(m, front), events[|events| - 1], f);
    }
  }

  /** A refresh that reads an interface truly, with no command of it under way, leaves
      its cost in place once everything is done, if nothing disturbs it meanwhile. */
  lemma RefreshTruly(m: Costs, found: seq<Link>, f: string, i: nat, events: seq<Event>)
    requires m.todo == [] && DistinctLinks(found) && f in m.desired && f !in m.taken
    requires i < |found| && found[i].iface == f && found[i].cost.Some? && found[i].cost == Get(m.bird, f)
    requires Undisturbed(After(m, Begin(found)), events, f) && AtRest(AfterAll(After(m, Begin(found)), events))
    ensures InPlace(AfterAll(After(m, Begin(found)), events), f)
  {
    hide Undisturbed, After, AfterAll;
    RefreshRepairs(m, found, f, i);
    assert TodoOk(After(m, Begin(found))) by { BeginsInOrder(m, found); }
    RunKeepsFine(After(m, Begin(found)), events, f);
  }

  lemma BeginsInOrder(m: Costs, found: seq<Link>)
    requires m.todo == [] && DistinctLinks(found)
    ensures TodoOk(After(m, Begin(found)))
  {
    DriftsApart(found, Kept(m.desired, found));
  }

  /** Whenever things come to rest undisturbed, the cost wanted is the one BIRD has. */
  ghost predicate EndsInPlace(m: Costs, f: string) {
    forall events :: Undisturbed(m, events, f) && AtRest(AfterAll(m, events)) ==> InPlace(AfterAll(m, events), f)
  }

  lemma AfterAllMore(m: Costs, events: seq<Event>, e: Event)
    ensures AfterAll(m, events + [e]) == After(AfterAll(m, events), e)
    ensures forall f :: Undisturbed(m, events + [e], f)
              <==> Undisturbed(m, events, f) && !Disturbs(AfterAll(m, events), e, f)
  {
    assert (events + [e])[..|events|] == events;
  }

  /** Being fine is exactly what it takes. */
  lemma EndsInPlaceIffFine(m: Costs, f: string)
    requires TodoOk(m)
    ensures Fine(m, f) <==> EndsInPlace(m, f)
  {
    hide After, Disturbs;
    if Fine(m, f) {
      forall events | Undisturbed(m, events, f) && AtRest(AfterAll(m, events))
        ensures InPlace(AfterAll(m, events), f)
      {
        RunKeepsFine(m, events, f);
      }
    } else {
      var events := Finish(m, f);
    }
  }

  /** Commands noted and costs put back, in whatever state they are. */
  lemma Finish(m: Costs, f: string) returns (events: seq<Event>)
    requires TodoOk(m) && !Fine(m, f)
    ensures Undisturbed(m, events, f) && AtRest(AfterAll(m, events)) && !InPlace(AfterAll(m, events), f)
  {
    assert Undisturbed(m, [], f) && AfterAll(m, []) == m;
    hide After, Disturbs, Undisturbed, AfterAll;
    events := NoteAll(m, [], f, m.taken.Keys);
    events := RedoAll(m, events, f, |m.todo|);
  }

  /** Never fine, as long as nothing new is begun. */
  ghost predicate StillWrong(m: Costs, f: string) { TodoOk(m) && !Fine(m, f) }

  lemma NoteKeepsWrong(m: Costs, f: string, g: string)
    requires StillWrong(m, f)
    ensures StillWrong(After(m, Note(g)), f) && !Disturbs(m, Note(g), f)
    ensures After(m, Note(g)).taken == m.taken - {g} && After(m, Note(g)).todo == m.todo
  {
  }

  lemma RedoKeepsWrong(m: Costs, f: string)
    requires StillWrong(m, f) && m.todo != []
    ensures StillWrong(After(m, Redo(true)), f) && !Disturbs(m, Redo(true), f)
    ensures After(m, Redo(true)).todo == m.todo[1..] && After(m, Redo(true)).taken == m.taken
  {
    var rest := m.todo[1..];
    assert forall i :: 0 <= i < |rest| ==> rest[i] == m.todo[i + 1];
    if m.todo[0].0 != f && Waiting(m, f) {
      var i :| 0 <= i < |m.todo| && m.todo[i].0 == f;
      assert rest[i - 1].0 == f;
    }
  }

  lemma {:induction false} NoteAll(m: Costs, done: seq<Event>, f: string, keys: set<string>)
    returns (events: seq<Event>)
    requires Undisturbed(m, done, f) && StillWrong(AfterAll(m, done), f) && AfterAll(m, done).taken.Keys == keys
    ensures Undisturbed(m, events, f) && StillWrong(AfterAll(m, events), f)
    ensures AfterAll(m, events).taken == map[] && |AfterAll(m, events).todo| == |AfterAll(m, done).todo|
    decreases |keys|
  {
    hide After, Disturbs, Undisturbed, AfterAll, StillWrong;
    if g :| g in keys {
      AfterAllMore(m, done, Note(g));
      NoteKeepsWrong(AfterAll(m, done), f, g);
      events := NoteAll(m, done + [Note(g)], f, keys - {g});
    } else {
      events := done;
    }
  }

  lemma {:induction false} RedoAll(m: Costs, done: seq<Event>, f: string, k: nat) returns (events: seq<Event>)
    requires Undisturbed(m, done, f) && StillWrong(AfterAll(m, done), f)
    requires AfterAll(m, done).taken == map[] && |AfterAll(m, done).todo| == k
    ensures Undisturbed(m, events, f) && AtRest(AfterAll(m, events)) && !InPlace(AfterAll(m, events), f)
    decreases k
  {
    if k > 0 {
      hide After, Disturbs, Undisturbed, AfterAll, StillWrong;
      AfterAllMore(m, done, Redo(true));
      RedoKeepsWrong(AfterAll(m, done), f);
      events := RedoAll(m, done + [Redo(true)], f, k - 1);
    } else {
      hide After, Disturbs, Undisturbed, AfterAll;
      events := done;
      WrongAtRest(AfterAll(m, done), f);
    }
  }

  lemma WrongAtRest(m: Costs, f: string)
    requires StillWrong(m, f) && AtRest(m)
    ensures !InPlace(m, f)
  {
  }
}
