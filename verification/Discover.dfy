/** Interface globs (crates/agent/src/discover.rs): a matcher and a token extractor that
    must agree. Names and patterns are bytes; `char` stands for one. */
module Discover {
  import opened Core

  /** `glob_match`: `*` any run, `?` one byte, nothing else special. */
  predicate GlobMatch(pattern: string, name: string)
    decreases |pattern|
  {
    if pattern == "" then name == ""
    else if pattern[0] == '*' then exists k :: 0 <= k <= |name| && GlobMatch(pattern[1..], name[k..])
    else if pattern[0] == '?' then name != "" && GlobMatch(pattern[1..], name[1..])
    else name != "" && name[0] == pattern[0] && GlobMatch(pattern[1..], name[1..])
  }

  /** What one pattern byte may stand for. */
  predicate Fits(p: char, part: string) {
    p == '*' || (p == '?' && |part| == 1) || (p != '*' && p != '?' && part == [p])
  }

  predicate PartFits(pattern: string, name: string, cuts: seq<nat>, i: nat)
    requires i < |pattern| && |cuts| == |pattern| + 1
  {
    cuts[i] <= cuts[i + 1] <= |name| && Fits(pattern[i], name[cuts[i]..cuts[i + 1]])
  }

  /** A way to cut the name into one part per pattern byte. */
  ghost predicate IsCut(pattern: string, name: string, cuts: seq<nat>) {
    && |cuts| == |pattern| + 1 && cuts[0] == 0 && cuts[|pattern|] == |name|
    && forall i :: 0 <= i < |pattern| ==> PartFits(pattern, name, cuts, i)
  }

  ghost predicate Matches(pattern: string, name: string) {
    exists cuts :: IsCut(pattern, name, cuts)
  }

  /** The recursive matcher decides the declarative relation, for every pattern. */
  lemma {:induction false} GlobMatchDecides(pattern: string, name: string)
    ensures GlobMatch(pattern, name) <==> Matches(pattern, name)
    decreases |pattern|
  {
    if GlobMatch(pattern, name) {
      MatchHasCut(pattern, name);
    }
    if Matches(pattern, name) {
      var cuts :| IsCut(pattern, name, cuts);
      CutMatches(pattern, name, cuts);
    }
  }

  lemma {:induction false} MatchHasCut(pattern: string, name: string)
    requires GlobMatch(pattern, name)
    ensures Matches(pattern, name)
    decreases |pattern|
  {
    if pattern == "" {
      assert IsCut(pattern, name, [0]);
    } else {
      var k := if pattern[0] == '*'
               then var k :| 0 <= k <= |name| && GlobMatch(pattern[1..], name[k..]); k
               else 1;
      MatchHasCut(pattern[1..], name[k..]);
      var rest :| IsCut(pattern[1..], name[k..], rest);
      CutCons(pattern, name, k, rest);
    }
  }

  function Shifted(cuts: seq<nat>, k: nat): seq<nat> {
    seq(|cuts|, i requires 0 <= i < |cuts| => cuts[i] + k)
  }

  lemma CutCons(pattern: string, name: string, k: nat, rest: seq<nat>)
    requires pattern != "" && k <= |name| && Fits(pattern[0], name[..k])
    requires IsCut(pattern[1..], name[k..], rest)
    ensures IsCut(pattern, name, [0] + Shifted(rest, k))
  {
    var cuts := [0] + Shifted(rest, k);
    assert forall i :: 0 <= i < |rest| ==> cuts[i + 1] == rest[i] + k;
    forall i | 0 <= i < |pattern| ensures PartFits(pattern, name, cuts, i) {
      if i > 0 {
        assert PartFits(pattern[1..], name[k..], rest, i - 1);
        assert cuts[i] == rest[i - 1] + k && cuts[i + 1] == rest[i] + k;
        assert pattern[1..][i - 1] == pattern[i];
        assert name[k..][rest[i - 1]..rest[i]] == name[cuts[i]..cuts[i + 1]];
      } else {
        assert cuts[1] == rest[0] + k == k;
      }
    }
  }

  lemma {:induction false} CutMatches(pattern: string, name: string, cuts: seq<nat>)
    requires IsCut(pattern, name, cuts)
    ensures GlobMatch(pattern, name)
    decreases |pattern|
  {
    if pattern != "" {
      assert PartFits(pattern, name, cuts, 0);
      CutTail(pattern, name, cuts);
      CutMatches(pattern[1..], name[cuts[1]..], Tail(cuts));
      var part := name[cuts[0]..cuts[1]];
      assert Fits(pattern[0], part);
      if pattern[0] != '*' {
        assert cuts[1] == 1 && part[0] == name[0];
      }
    }
  }

  /** The cuts of the rest, counted from the first part's end. */
  function Tail(cuts: seq<nat>): seq<nat>
    requires |cuts| >= 2
  {
    seq(|cuts| - 1, i requires 0 <= i < |cuts| - 1 => SatSub(cuts[i + 1], cuts[1]))
  }

  lemma {:induction false} CutsAscend(pattern: string, name: string, cuts: seq<nat>, i: nat)
    requires IsCut(pattern, name, cuts) && 1 <= i <= |pattern|
    ensures cuts[1] <= cuts[i] <= |name|
    decreases i
  {
    if i > 1 {
      CutsAscend(pattern, name, cuts, i - 1);
    }
    assert PartFits(pattern, name, cuts, i - 1);
  }

  lemma CutTail(pattern: string, name: string, cuts: seq<nat>)
    requires IsCut(pattern, name, cuts) && pattern != ""
    ensures cuts[1] <= |name| && IsCut(pattern[1..], name[cuts[1]..], Tail(cuts))
  {
    var k, tail := cuts[1], Tail(cuts);
    CutsAscend(pattern, name, cuts, 1);
    forall i | 1 <= i <= |pattern| ensures k <= cuts[i] <= |name| && tail[i - 1] == cuts[i] - k {
      CutsAscend(pattern, name, cuts, i);
    }
    forall i | 0 <= i < |pattern| - 1 ensures PartFits(pattern[1..], name[k..], tail, i) {
      assert PartFits(pattern, name, cuts, i + 1);
      assert tail[i] == cuts[i + 1] - k && tail[i + 1] == cuts[i + 2] - k;
      assert name[k..][tail[i]..tail[i + 1]] == name[cuts[i + 1]..cuts[i + 2]];
    }
  }

  // ── The token of a single star ───────────────────────────────────────────

  /** `split_once('*')`: around the first star. */
  function SplitOnce(pattern: string): Option<(string, string)> {
    if pattern == "" then None
    else if pattern[0] == '*' then Some(("", pattern[1..]))
    else
      match SplitOnce(pattern[1..])
      case None => None
      case Some(halves) => Some(([pattern[0]] + halves.0, halves.1))
  }

  function StripPrefix(name: string, pre: string): Option<string> {
    if pre <= name then Some(name[|pre|..]) else None
  }

  function StripSuffix(name: string, suf: string): Option<string> {
    if |suf| <= |name| && name[|name| - |suf|..] == suf then Some(name[..|name| - |suf|]) else None
  }

  /** `glob_token`: what the only star of the pattern matched. */
  function GlobToken(pattern: string, name: string): Option<string> {
    var halves := SplitOnce(pattern);
    if halves == None then None
    else
      var (pre, suf) := halves.value;
      if '*' in suf || '?' in pre || '?' in suf then None
      else
        var rest := StripPrefix(name, pre);
        if rest == None then None
        else
          var mid := StripSuffix(rest.value, suf);
          if mid == None || mid.value == "" then None else mid
  }

  /** The pattern is plain text around exactly one star. */
  predicate OneStar(pattern: string, pre: string, suf: string) {
    pattern == pre + "*" + suf && Plain(pre) && Plain(suf)
  }

  predicate Plain(s: string) { '*' !in s && '?' !in s }

  lemma {:induction false} SplitOnceMeans(pattern: string)
    ensures match SplitOnce(pattern)
            case None => '*' !in pattern
            case Some(halves) => pattern == halves.0 + "*" + halves.1 && '*' !in halves.0
  {
    if pattern != "" && pattern[0] != '*' {
      SplitOnceMeans(pattern[1..]);
      assert pattern == [pattern[0]] + pattern[1..];
      if SplitOnce(pattern[1..]).Some? {
        var halves := SplitOnce(pattern[1..]).value;
        assert [pattern[0]] + (halves.0 + "*" + halves.1) == [pattern[0]] + halves.0 + "*" + halves.1;
      }
    }
  }

  /** A one-star pattern splits in exactly one way. */
  lemma {:induction false} SplitOnceFinds(pre: string, suf: string)
    requires '*' !in pre
    ensures SplitOnce(pre + "*" + suf) == Some((pre, suf))
    decreases |pre|
  {
    var pattern := pre + "*" + suf;
    if pre == "" {
      assert pattern[1..] == suf;
    } else {
      assert pattern[1..] == pre[1..] + "*" + suf;
      SplitOnceFinds(pre[1..], suf);
      assert pre == [pre[0]] + pre[1..];
    }
  }

  /** For plain text around one star, the token is what stands between the text, when
      anything does; for any other pattern there is none. */
  lemma TokenMeans(pattern: string, name: string, m: string)
    ensures GlobToken(pattern, name) == Some(m)
       <==> m != "" && exists pre, suf :: OneStar(pattern, pre, suf) && name == pre + m + suf
  {
    SplitOnceMeans(pattern);
    if GlobToken(pattern, name) == Some(m) {
      var (pre, suf) := SplitOnce(pattern).value;
      StripsJoin(name, pre, suf, m);
      assert OneStar(pattern, pre, suf);
    }
    if exists pre, suf :: OneStar(pattern, pre, suf) && name == pre + m + suf {
      var pre, suf :| OneStar(pattern, pre, suf) && name == pre + m + suf;
      SplitOnceFinds(pre, suf);
      JoinStrips(name, pre, suf, m);
    }
  }

  lemma StripsJoin(name: string, pre: string, suf: string, m: string)
    requires StripPrefix(name, pre).Some? && StripSuffix(StripPrefix(name, pre).value, suf) == Some(m)
    ensures name == pre + m + suf
  {
  }

  lemma JoinStrips(name: string, pre: string, suf: string, m: string)
    requires name == pre + m + suf
    ensures StripPrefix(name, pre) == Some(m + suf) && StripSuffix(m + suf, suf) == Some(m)
  {
    assert name == pre + (m + suf);
    assert (m + suf)[|m|..] == suf && (m + suf)[..|m|] == m;
  }

  /** The matcher on plain text. */
  lemma {:induction false} PlainMatch(pattern: string, name: string)
    requires Plain(pattern)
    ensures GlobMatch(pattern, name) <==> name == pattern
    decreases |pattern|
  {
    if pattern != "" {
      assert pattern[0] in pattern;
      forall c | c in pattern[1..] ensures c in pattern {
      }
      if name != "" {
        PlainMatch(pattern[1..], name[1..]);
        assert name == [name[0]] + name[1..] && pattern == [pattern[0]] + pattern[1..];
      }
    }
  }

  /** The two algorithms agree: a one-star pattern matches exactly when the name is
      the text around some run, and the token is that run, when it is not empty. */
  lemma {:induction false} OneStarMatch(pattern: string, pre: string, suf: string, name: string)
    requires OneStar(pattern, pre, suf)
    ensures GlobMatch(pattern, name) <==> exists m: string :: name == pre + m + suf
    decreases |pre|
  {
    if pre == "" {
      LeadingStar(pattern, suf, name);
      if m: string :| name == m + suf {
        assert pre + m == m;
        assert name == pre + m + suf;
      }
      if m: string :| name == pre + m + suf {
        assert pre + m == m;
        assert name == m + suf;
      }
    } else {
      OneStarStep(pattern, pre, suf, name);
      if name != "" {
        OneStarMatch(pattern[1..], pre[1..], suf, name[1..]);
        PeelOne(pre, suf, name);
      }
    }
  }

  lemma LeadingStar(pattern: string, suf: string, name: string)
    requires OneStar(pattern, "", suf)
    ensures GlobMatch(pattern, name) <==> exists m: string :: name == m + suf
  {
    assert pattern[0] == '*' && pattern[1..] == suf;
    forall k | 0 <= k <= |name| ensures GlobMatch(suf, name[k..]) <==> name == name[..k] + suf {
      PlainMatch(suf, name[k..]);
      assert name == name[..k] + name[k..];
    }
    if GlobMatch(pattern, name) {
      var k :| 0 <= k <= |name| && GlobMatch(pattern[1..], name[k..]);
      assert name == name[..k] + suf;
    }
    if exists m: string :: name == m + suf {
      var m: string :| name == m + suf;
      assert name[|m|..] == suf && name[..|m|] == m;
    }
  }

  lemma OneStarStep(pattern: string, pre: string, suf: string, name: string)
    requires OneStar(pattern, pre, suf) && pre != ""
    ensures OneStar(pattern[1..], pre[1..], suf)
    ensures GlobMatch(pattern, name) <==> name != "" && name[0] == pre[0] && GlobMatch(pattern[1..], name[1..])
    ensures name == "" ==> forall m: string :: name != pre + m + suf
  {
  }

  lemma PeelOne(pre: string, suf: string, name: string)
    requires pre != "" && name != ""
    ensures (exists m: string :: name == pre + m + suf)
       <==> name[0] == pre[0] && exists m: string :: name[1..] == pre[1..] + m + suf
  {
    forall m: string ensures name == pre + m + suf <==> name[0] == pre[0] && name[1..] == pre[1..] + m + suf {
      assert pre == [pre[0]] + pre[1..] && name == [name[0]] + name[1..];
      assert (pre + m + suf)[1..] == pre[1..] + m + suf && (pre + m + suf)[0] == pre[0];
    }
  }

  /** So a token is found exactly when the glob matches with a star that is not empty. */
  lemma TokenIffMatchWithRun(pattern: string, pre: string, suf: string, name: string)
    requires OneStar(pattern, pre, suf)
    ensures GlobToken(pattern, name).Some? <==> GlobMatch(pattern, name) && |name| > |pre| + |suf|
    ensures GlobToken(pattern, name).Some? ==> name == pre + GlobToken(pattern, name).value + suf
  {
    OneStarMatch(pattern, pre, suf, name);
    SplitOnceFinds(pre, suf);
    if GlobToken(pattern, name).Some? {
      var m := GlobToken(pattern, name).value;
      StripsJoin(name, pre, suf, m);
    }
    if GlobMatch(pattern, name) && |name| > |pre| + |suf| {
      var m: string :| name == pre + m + suf;
      JoinStrips(name, pre, suf, m);
    }
  }

  /** `iface_token`: the token under the first glob that matches. */
  method IfaceToken(iface: string, globs: seq<string>) returns (token: Option<string>)
    ensures match token
            case Some(m) =>
              exists i :: 0 <= i < |globs| && FirstMatch(iface, globs, i) && GlobToken(globs[i], iface) == Some(m)
            case None =>
              forall i :: 0 <= i < |globs| && FirstMatch(iface, globs, i) ==> GlobToken(globs[i], iface) == None
  {
    hide GlobMatch, GlobToken;
    for i := 0 to |globs|
      invariant forall j :: 0 <= j < i ==> !GlobMatch(globs[j], iface)
    {
      if GlobMatch(globs[i], iface) {
        assert FirstMatch(iface, globs, i);
        return GlobToken(globs[i], iface);
      }
    }
    return None;
  }

  predicate FirstMatch(iface: string, globs: seq<string>, i: nat)
    requires i < |globs|
  {
    GlobMatch(globs[i], iface) && forall j :: 0 <= j < i ==> !GlobMatch(globs[j], iface)
  }
}
