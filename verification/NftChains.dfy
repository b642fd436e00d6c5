/** The fw4 include and what the agent does to it
    (mielofon-agent/files/usr/share/nftables.d/table-post/mielofon.nft and
    crates/agent/src/nft.rs): ordered rules over one packet, the verdict map and
    the per-block assertion transaction. */
module NftChains {
  import opened Core
  import opened AgentMark

  /** The marking part of `table inet fw4`. */
  datatype Kernel = Kernel(sets: Listing, colourMap: map<string, Colour>, nextHandle: nat)

  datatype Proto = V4 | V6

  /** The parts of a packet the rules look at; `bit` is DSCP bit 0. */
  datatype Hdr = Hdr(proto: Proto, len: nat, bit: bool)

  /** `<proto> [dscp & 1 == bit] <length band> <if>name @set [dscp set]`: the set
      lookup is the last match and ticks the element; then the bit is written. */
  datatype Rule = Rule(proto: Proto, wantBit: Option<bool>, band: Band, counted: SetName, writeBit: Option<bool>)

  /** The include's length split. */
  function BandOf(len: nat): Band { if len <= 1000 then Short else Long }

  ghost predicate Loaded(k: Kernel) {
    forall name: SetName :: name in k.sets
  }

  predicate HasIface(k: Kernel, name: SetName, iface: string) {
    name in k.sets && iface in k.sets[name].elems
  }

  function Tick(k: Kernel, name: SetName, iface: string, len: nat): Kernel
    requires HasIface(k, name, iface)
  {
    var sc := k.sets[name];
    var c := sc.elems[iface];
    k.(sets := k.sets[name := sc.(elems := sc.elems[iface := Counter(c.pkts + 1, c.bytes + len)])])
  }

  predicate Matches(r: Rule, h: Hdr) {
    h.proto == r.proto && (r.wantBit.Some? ==> h.bit == r.wantBit.value) && BandOf(h.len) == r.band
  }

  function ApplyRule(k: Kernel, r: Rule, iface: string, h: Hdr): (Kernel, Hdr) {
    if Matches(r, h) && HasIface(k, r.counted, iface)
    then (Tick(k, r.counted, iface, h.len), if r.writeBit.Some? then h.(bit := r.writeBit.value) else h)
    else (k, h)
  }

  function RunRules(k: Kernel, rules: seq<Rule>, iface: string, h: Hdr): (Kernel, Hdr)
    decreases |rules|
  {
    if rules == [] then (k, h)
    else
      var (k1, h1) := ApplyRule(k, rules[0], iface, h);
      RunRules(k1, rules[1..], iface, h1)
  }

  function EgressRule(p: Proto, c: Colour, b: Band): Rule {
    Rule(p, None, b, SetName(Tx, c, b), Some(c == A))
  }

  /** `chain mielofon_a` / `chain mielofon_b`. */
  function ColourChain(c: Colour): seq<Rule> {
    [EgressRule(V6, c, Short), EgressRule(V4, c, Short), EgressRule(V6, c, Long), EgressRule(V4, c, Long)]
  }

  function CountRule(p: Proto, c: Colour, b: Band): Rule {
    Rule(p, Some(c == A), b, SetName(Rx, c, b), if c == A then Some(false) else None)
  }

  /** `chain mielofon_count`: colour B before colour A, per protocol. */
  function CountChain(): seq<Rule> {
    [CountRule(V6, B, Short), CountRule(V6, B, Long), CountRule(V6, A, Short), CountRule(V6, A, Long),
     CountRule(V4, B, Short), CountRule(V4, B, Long), CountRule(V4, A, Short), CountRule(V4, A, Long)]
  }

  /** `chain mielofon_mark`: the verdict map sends a managed interface to its colour. */
  function MarkPacket(k: Kernel, oif: string, h: Hdr): (Kernel, Hdr) {
    if oif in k.colourMap then RunRules(k, ColourChain(k.colourMap[oif]), oif, h) else (k, h)
  }

  function CountPacket(k: Kernel, iif: string, h: Hdr): (Kernel, Hdr) {
    RunRules(k, CountChain(), iif, h)
  }

  lemma {:induction false} RulesThatMissChangeNothing(k: Kernel, rules: seq<Rule>, iface: string, h: Hdr)
    requires forall i :: 0 <= i < |rules| ==> !Matches(rules[i], h)
    ensures RunRules(k, rules, iface, h) == (k, h)
  {
    if rules != [] {
      RulesThatMissChangeNothing(k, rules[1..], iface, h);
    }
  }

  /** A chain in which exactly one rule applies does that rule and nothing else:
      the rules before it miss the packet, the rules after it miss what it left. */
  lemma {:induction false} OneRuleFires(k: Kernel, rules: seq<Rule>, at: nat, iface: string, h: Hdr)
    requires at < |rules|
    requires forall i :: 0 <= i < at ==> !Matches(rules[i], h)
    requires forall i :: at < i < |rules| ==> !Matches(rules[i], ApplyRule(k, rules[at], iface, h).1)
    ensures RunRules(k, rules, iface, h) == ApplyRule(k, rules[at], iface, h)
  {
    if at == 0 {
      var (k1, h1) := ApplyRule(k, rules[0], iface, h);
      RulesThatMissChangeNothing(k1, rules[1..], iface, h1);
    } else {
      assert forall i :: 0 <= i < |rules| - 1 ==> rules[1..][i] == rules[i + 1];
      OneRuleFires(k, rules[1..], at - 1, iface, h);
    }
  }

  /** Egress: every packet of a managed interface ticks exactly one tx element,
      that of the map's colour and its own length band, and leaves coloured; any
      other packet passes untouched. */
  lemma MarkTicksOneElement(k: Kernel, oif: string, h: Hdr)
    ensures oif !in k.colourMap ==> MarkPacket(k, oif, h) == (k, h)
    ensures oif in k.colourMap ==>
      var c := k.colourMap[oif];
      var name := SetName(Tx, c, if h.len <= 1000 then Short else Long);
      MarkPacket(k, oif, h)
      == if HasIface(k, name, oif) then (Tick(k, name, oif, h.len), h.(bit := c == A)) else (k, h)
  {
    if oif in k.colourMap {
      var c := k.colourMap[oif];
      var at := (if h.proto == V6 then 0 else 1) + (if BandOf(h.len) == Short then 0 else 2);
      OneRuleFires(k, ColourChain(c), at, oif, h);
    }
  }

  /** Ingress: every packet ticks exactly one rx element, that of its own colour
      bit and length band, and continues with the bit clear. */
  lemma CountTicksOneElement(k: Kernel, iif: string, h: Hdr)
    ensures var name := SetName(Rx, if h.bit then A else B, if h.len <= 1000 then Short else Long);
            CountPacket(k, iif, h)
            == if HasIface(k, name, iif) then (Tick(k, name, iif, h.len), h.(bit := false)) else (k, h)
  {
    var at := (if h.proto == V6 then 0 else 4) + (if h.bit then 2 else 0) + (if BandOf(h.len) == Short then 0 else 1);
    var rules := CountChain();
    assert Matches(rules[at], h);
    OneRuleFires(k, rules, at, iif, h);
  }

  /** Why the include counts colour B first: in the other order a colour-A packet
      is cleaned by its own rule and then ticks the colour-B element as well. */
  lemma CountingColourAFirstCountsTwice(k: Kernel, iif: string, h: Hdr)
    requires h.bit
    requires HasIface(k, SetName(Rx, A, BandOf(h.len)), iif) && HasIface(k, SetName(Rx, B, BandOf(h.len)), iif)
    ensures var swapped := [CountRule(h.proto, A, BandOf(h.len)), CountRule(h.proto, B, BandOf(h.len))];
            var k1 := Tick(k, SetName(Rx, A, BandOf(h.len)), iif, h.len);
            RunRules(k, swapped, iif, h)
            == (Tick(k1, SetName(Rx, B, BandOf(h.len)), iif, h.len), h.(bit := false))
  {
    var swapped := [CountRule(h.proto, A, BandOf(h.len)), CountRule(h.proto, B, BandOf(h.len))];
    var (k1, h1) := ApplyRule(k, swapped[0], iif, h);
    var tail := swapped[1..];
    assert tail == [swapped[1]];
    assert RunRules(k1, tail, iif, h1)
        == RunRules(ApplyRule(k1, swapped[1], iif, h1).0, tail[1..], iif, ApplyRule(k1, swapped[1], iif, h1).1);
  }

  // ── The agent's transactions and the firewall's ──────────────────────────

  predicate NameChar(c: char) {
    'a' <= c <= 'z' || 'A' <= c <= 'Z' || '0' <= c <= '9' || c == '_' || c == '-' || c == '.'
  }

  /** Names that fit the script grammar; others never reach `nft -f`. */
  predicate Quotable(iface: string) {
    0 < |iface| < 16 && forall i :: 0 <= i < |iface| ==> NameChar(iface[i])
  }

  function Managed(ifaces: seq<string>): set<string> {
    set i | i in ifaces && Quotable(i)
  }

  /** `add element`: present elements keep their counters. */
  function AddElements(sc: SetCounters, names: set<string>): SetCounters {
    sc.(elems := (map i | i in names :: Counter(0, 0)) + sc.elems)
  }

  /** The per-block assertion: membership in all eight sets, and the colour map
      rebuilt to exactly the managed interfaces. */
  function AssertBlock(k: Kernel, ifaces: seq<string>, n: nat): Kernel {
    Kernel(map name | name in k.sets :: AddElements(k.sets[name], Managed(ifaces)),
           map i | i in Managed(ifaces) :: ColourOf(n),
           k.nextHandle)
  }

  /** A firewall reload: empty sets under fresh handles, empty map. */
  function Rebuild(k: Kernel): Kernel {
    Kernel(map name | name in k.sets :: SetCounters(k.nextHandle, map[]), map[], k.nextHandle + 1)
  }

  /** The ASCII codes of letters and digits, and of the hyphen, dot and underscore. */
  predicate FitsCode(code: int) {
    97 <= code <= 122 || 65 <= code <= 90 || 48 <= code <= 57 || code == 45 || code == 46 || code == 95
  }

  /** 1 to 15 such characters. */
  predicate FitsScript(iface: string) { 1 <= |iface| <= 15 && forall c :: c in iface ==> FitsCode(c as int) }

  lemma QuotableFits(iface: string)
    ensures Quotable(iface) <==> FitsScript(iface)
  {
    assert forall c: char :: NameChar(c) <==> FitsCode(c as int);
    hide NameChar, FitsCode;
    assert forall i :: 0 <= i < |iface| ==> iface[i] in iface;
  }

  /** What the assertion leaves: the map sends exactly the listed names that fit to the
      block's colour, and each such name is in every set, from 0 where it was not; all
      other elements, and the handles, are as they were. */
  lemma AssertionTells(k: Kernel, ifaces: seq<string>, n: nat)
    ensures var k' := AssertBlock(k, ifaces, n);
            && k'.sets.Keys == k.sets.Keys && k'.nextHandle == k.nextHandle
            && (forall i :: i in k'.colourMap <==> i in ifaces && FitsScript(i))
            && (forall i :: i in k'.colourMap ==> k'.colourMap[i] == if n % 2 == 0 then A else B)
            && (forall name :: name in k.sets ==> SetTells(k.sets[name], k'.sets[name], ifaces))
  {
    forall i: string ensures Quotable(i) <==> FitsScript(i) {
      QuotableFits(i);
    }
    hide Quotable, FitsScript;
  }

  ghost predicate SetTells(s: SetCounters, s': SetCounters, ifaces: seq<string>) {
    && s'.handle == s.handle
    && (forall i :: i in s'.elems <==> i in s.elems || (i in ifaces && FitsScript(i)))
    && (forall i :: i in s'.elems ==> s'.elems[i] == if i in s.elems then s.elems[i] else Counter(0, 0))
  }

  /** The assertion is idempotent, keeps every counter and handle it finds, and is
      the same whether the table was just rebuilt or not as far as the map goes. */
  lemma AssertionKeepsCounters(k: Kernel, ifaces: seq<string>, n: nat)
    ensures AssertBlock(AssertBlock(k, ifaces, n), ifaces, n) == AssertBlock(k, ifaces, n)
    ensures AssertBlock(Rebuild(k), ifaces, n).colourMap == AssertBlock(k, ifaces, n).colourMap
    ensures forall name, i :: HasIface(k, name, i) ==>
              HasIface(AssertBlock(k, ifaces, n), name, i)
              && AssertBlock(k, ifaces, n).sets[name].elems[i] == k.sets[name].elems[i]
    ensures forall name, i :: name in k.sets && i in Managed(ifaces) ==> HasIface(AssertBlock(k, ifaces, n), name, i)
  {
    var once := AssertBlock(k, ifaces, n);
    var twice := AssertBlock(once, ifaces, n);
    assert once.sets.Keys == k.sets.Keys && twice.sets.Keys == once.sets.Keys;
    forall name | name in k.sets ensures twice.sets[name] == once.sets[name] {
      assert twice.sets[name].elems == once.sets[name].elems;
    }
    assert twice.sets == once.sets;
  }
}
