/** Leftmost substitution for any matcher, as re.sub performs it, and when its
    output is free of matches. */
module Substitution {
  import opened Options

  /** Where the captured group begins and where the match ends. */
  datatype Match = Match(group: nat, end: nat)

  /** The match that begins at the head of a text, given the character left of it. */
  type Matcher = (Option<char>, string) -> Option<Match>

  ghost predicate Bounded(m: Matcher) {
    forall l, t :: m(l, t).Some? ==> m(l, t).value.group < m(l, t).value.end <= |t|
  }

  function LeftOf(left: Option<char>, t: string, i: nat): Option<char>
    requires i <= |t|
  {
    if i == 0 then left else Some(t[i - 1])
  }

  /** pattern.search(t) is not None */
  predicate Finds(m: Matcher, t: string) {
    exists i :: 0 <= i < |t| && m(LeftOf(None, t, i), t[i..]).Some?
  }

  /** pattern.sub(replacement, t): leftmost matches replaced, the rest copied. */
  function Substitute(m: Matcher, replacement: string -> string, left: Option<char>, t: string): string
    requires Bounded(m)
    decreases |t|
  {
    if t == "" then ""
    else
      match m(left, t)
      case Some(Match(group, end)) =>
        replacement(t[group..end]) + Substitute(m, replacement, Some(t[end - 1]), t[end..])
      case None => [t[0]] + Substitute(m, replacement, Some(t[0]), t[1..])
  }

  /** The captured groups, in order. */
  function Groups(m: Matcher, left: Option<char>, t: string): seq<string>
    requires Bounded(m)
    decreases |t|
  {
    if t == "" then []
    else
      match m(left, t)
      case Some(Match(group, end)) => [t[group..end]] + Groups(m, Some(t[end - 1]), t[end..])
      case None => Groups(m, Some(t[0]), t[1..])
  }

  /** No match begins anywhere in t. */
  predicate Clean(m: Matcher, left: Option<char>, t: string)
    decreases |t|
  {
    t == "" || (m(left, t).None? && Clean(m, Some(t[0]), t[1..]))
  }

  lemma {:induction false} CleanPositions(m: Matcher, left: Option<char>, t: string)
    ensures Clean(m, left, t) <==> forall i :: 0 <= i < |t| ==> m(LeftOf(left, t, i), t[i..]).None?
    decreases |t|
  {
    if t != "" {
      var u := t[1..];
      CleanPositions(m, Some(t[0]), u);
      assert t[0..] == t;
      forall i | 0 <= i < |u| ensures LeftOf(left, t, i + 1) == LeftOf(Some(t[0]), u, i) && t[i + 1..] == u[i..] {
      }
      if Clean(m, left, t) {
        forall i | 0 <= i < |t| ensures m(LeftOf(left, t, i), t[i..]).None? {
          if i > 0 { assert m(LeftOf(Some(t[0]), u, i - 1), u[i - 1..]).None?; }
        }
      }
    }
  }

  lemma CleanMeansNoneFound(m: Matcher, t: string)
    ensures Clean(m, None, t) <==> !Finds(m, t)
  {
    CleanPositions(m, None, t);
  }

  lemma {:induction false} CleanSuffix(m: Matcher, left: Option<char>, t: string, n: nat)
    requires Clean(m, left, t) && n <= |t|
    ensures Clean(m, LeftOf(left, t, n), t[n..])
    decreases |t|
  {
    if n > 0 {
      CleanSuffix(m, Some(t[0]), t[1..], n - 1);
      assert t[1..][n - 1..] == t[n..];
    } else {
      assert t[0..] == t;
    }
  }

  // --------------------------------------------------------- replacements

  /** What may stand in for a secret: it begins with the bracket that no match
      contains, and no suffix of it begins a match. */
  ghost predicate Inert(m: Matcher, r: string) {
    forall i, l, rest {:trigger m(l, r[i..] + rest)} :: 0 <= i < |r| ==> m(l, r[i..] + rest).None?
  }

  /** The texts agree on k characters, and x has nothing or a bracket after them. */
  ghost predicate Agree(x: string, y: string, k: nat) {
    && k <= |x| && k <= |y| && (forall i :: 0 <= i < k ==> x[i] == y[i])
    && (k < |x| ==> x[k] == '[')
  }

  /** A match needs no character beyond a bracket. */
  ghost predicate Local(m: Matcher) {
    forall l, x, y, k :: Agree(x, y, k) && m(l, x).Some? ==> m(l, y).Some?
  }

  /** After a match of q, no match of p begins, whatever stands to the left. */
  ghost predicate Separated(q: Matcher, p: Matcher) {
    forall l, t, l' :: q(l, t).Some? && q(l, t).value.end <= |t| ==> p(l', t[q(l, t).value.end..]).None?
  }

  /** The left neighbour means nothing to p. */
  ghost predicate IgnoresLeft(p: Matcher) { forall l, l', t :: p(l, t).Some? ==> p(l', t).Some? }

  lemma {:induction false} CleanThrough(m: Matcher, left: Option<char>, r: string, i: nat, rest: string,
      last: Option<char>)
    requires Inert(m, r) && i <= |r| && r != "" && last == Some(r[|r| - 1])
    requires Clean(m, last, rest)
    requires i == |r| ==> left == last
    ensures Clean(m, left, r[i..] + rest)
    decreases |r| - i
  {
    if i == |r| {
      assert r[i..] + rest == rest;
    } else {
      CleanThrough(m, Some(r[i]), r, i + 1, rest, last);
      var t := r[i..] + rest;
      assert m(left, t).None?;
      assert t[0] == r[i] && t[1..] == r[i + 1..] + rest;
    }
  }

  /** The substitution copies t up to its first match, where a bracket follows. */
  lemma {:induction false} CopiedPrefix(m: Matcher, replacement: string -> string, left: Option<char>, t: string)
    returns (k: nat)
    requires Bounded(m) && forall s :: replacement(s) != "" && replacement(s)[0] == '['
    ensures Agree(Substitute(m, replacement, left, t), t, k)
    decreases |t|
  {
    if t == "" || m(left, t).Some? {
      k := 0;
    } else {
      var n := CopiedPrefix(m, replacement, Some(t[0]), t[1..]);
      k := n + 1;
      var x := Substitute(m, replacement, left, t);
      assert x[1..] == Substitute(m, replacement, Some(t[0]), t[1..]);
      forall i | 0 <= i < k ensures x[i] == t[i] {
        if i > 0 { assert x[i] == x[1..][i - 1] && t[i] == t[1..][i - 1]; }
      }
    }
  }

  ghost predicate Harmless(p: Matcher, replacement: string -> string) {
    forall s :: replacement(s) != "" && replacement(s)[0] == '[' && Inert(p, replacement(s))
  }

  /** Substituting matches of q leaves no match of p, if p is q or t had none:
      a match of p in the output would lie in a copied stretch of t. */
  lemma {:induction false} SubstituteCleans(
      q: Matcher, p: Matcher, replacement: string -> string, left: Option<char>, left': Option<char>, t: string)
    requires Bounded(q) && Local(p) && Harmless(p, replacement)
    requires Separated(q, p) || IgnoresLeft(p)
    requires p == q || Clean(p, left, t)
    requires left' == left || (forall l :: p(l, t).None?) || IgnoresLeft(p)
    ensures Clean(p, left', Substitute(q, replacement, left, t))
    decreases |t|
  {
    if t != "" {
      var x := Substitute(q, replacement, left, t);
      match q(left, t)
      case Some(Match(group, end)) =>
        var r := replacement(t[group..end]);
        var last := Some(r[|r| - 1]);
        if p != q { CleanSuffix(p, left, t, end); }
        SubstituteCleans(q, p, replacement, Some(t[end - 1]), last, t[end..]);
        CleanThrough(p, left', r, 0, Substitute(q, replacement, Some(t[end - 1]), t[end..]), last);
        assert r[0..] == r;
      case None =>
        SubstituteCleans(q, p, replacement, Some(t[0]), Some(t[0]), t[1..]);
        assert x[0] == t[0] && x[1..] == Substitute(q, replacement, Some(t[0]), t[1..]);
        if p(left', x).Some? {
          var k := CopiedPrefix(q, replacement, left, t);
          assert false;
        }
    }
  }

  lemma {:induction false} SubstituteClean(m: Matcher, replacement: string -> string, left: Option<char>, t: string)
    requires Bounded(m) && Clean(m, left, t)
    ensures Substitute(m, replacement, left, t) == t && Groups(m, left, t) == []
    decreases |t|
  {
    if t != "" { SubstituteClean(m, replacement, Some(t[0]), t[1..]); }
  }

  // ------------------------------------------- what substitution keeps

  /** One match by its positions in the text: where it begins, its group, its end. */
  datatype Cut = Cut(at: nat, group: nat, end: nat)

  /** The cuts lie in the text one after the other, from this position on. */
  predicate InOrder(t: string, from: nat, cuts: seq<Cut>)
    decreases |cuts|
  {
    if cuts == [] then from <= |t|
    else from <= cuts[0].at <= cuts[0].group < cuts[0].end <= |t| && InOrder(t, cuts[0].end, cuts[1..])
  }

  /** No match begins in this stretch. */
  ghost predicate NoneBegins(m: Matcher, left: Option<char>, t: string, from: nat, to: nat)
    requires to <= |t|
  {
    forall p :: from <= p < to ==> m(LeftOf(left, t, p), t[p..]).None?
  }

  /** The match that begins where the cut does. */
  predicate Matched(m: Matcher, left: Option<char>, t: string, cut: Cut)
    requires cut.at <= cut.group < cut.end <= |t|
  {
    m(LeftOf(left, t, cut.at), t[cut.at..]) == Some(Match(cut.group - cut.at, cut.end - cut.at))
  }

  /** The leftmost greedy matches from a position on: each cut is the match at its
      place, and no match begins before it, between two, or after the last. */
  ghost predicate Cuts(m: Matcher, left: Option<char>, t: string, from: nat, cuts: seq<Cut>)
    requires InOrder(t, from, cuts)
    decreases |cuts|
  {
    if cuts == [] then NoneBegins(m, left, t, from, |t|)
    else
      && NoneBegins(m, left, t, from, cuts[0].at) && Matched(m, left, t, cuts[0])
      && Cuts(m, left, t, cuts[0].end, cuts[1..])
  }

  /** The text with every cut replaced and everything between them as it was. */
  function Rebuilt(t: string, from: nat, cuts: seq<Cut>, replacement: string -> string): string
    requires InOrder(t, from, cuts)
    decreases |cuts|
  {
    if cuts == [] then t[from..]
    else
      t[from..cuts[0].at] + replacement(t[cuts[0].group..cuts[0].end])
      + Rebuilt(t, cuts[0].end, cuts[1..], replacement)
  }

  /** The captured groups. */
  function Captured(t: string, from: nat, cuts: seq<Cut>): (r: seq<string>)
    requires InOrder(t, from, cuts)
    ensures |r| == |cuts|
    ensures forall i :: 0 <= i < |r| ==> cuts[i].group < cuts[i].end <= |t| && r[i] == t[cuts[i].group..cuts[i].end]
    decreases |cuts|
  {
    if cuts == [] then [] else [t[cuts[0].group..cuts[0].end]] + Captured(t, cuts[0].end, cuts[1..])
  }

  /** With no match here, the cuts from the next position on are those from here. */
  lemma CutsSkip(m: Matcher, left: Option<char>, t: string, from: nat, cuts: seq<Cut>, replacement: string -> string)
    requires from < |t| && m(LeftOf(left, t, from), t[from..]).None?
    requires InOrder(t, from + 1, cuts) && Cuts(m, left, t, from + 1, cuts)
    ensures InOrder(t, from, cuts) && Cuts(m, left, t, from, cuts)
    ensures Rebuilt(t, from, cuts, replacement) == [t[from]] + Rebuilt(t, from + 1, cuts, replacement)
    ensures Captured(t, from, cuts) == Captured(t, from + 1, cuts)
  {
    if cuts != [] { assert t[from..cuts[0].at] == [t[from]] + t[from + 1..cuts[0].at]; }
  }

  /** A match here comes before the cuts from its end on. */
  lemma CutsStart(m: Matcher, left: Option<char>, t: string, cut: Cut, rest: seq<Cut>, replacement: string -> string)
    requires cut.at <= cut.group < cut.end <= |t| && Matched(m, left, t, cut)
    requires InOrder(t, cut.end, rest) && Cuts(m, left, t, cut.end, rest)
    ensures InOrder(t, cut.at, [cut] + rest) && Cuts(m, left, t, cut.at, [cut] + rest)
    ensures Rebuilt(t, cut.at, [cut] + rest, replacement)
      == replacement(t[cut.group..cut.end]) + Rebuilt(t, cut.end, rest, replacement)
    ensures Captured(t, cut.at, [cut] + rest) == [t[cut.group..cut.end]] + Captured(t, cut.end, rest)
  {
    var cuts := [cut] + rest;
    assert cuts[0] == cut && cuts[1..] == rest;
    assert t[cut.at..cut.at] == "";
  }

  /** One step of the substitution where no match begins. */
  lemma StepOver(m: Matcher, replacement: string -> string, left: Option<char>, t: string, from: nat)
    requires Bounded(m) && from < |t| && m(LeftOf(left, t, from), t[from..]).None?
    ensures Substitute(m, replacement, LeftOf(left, t, from), t[from..])
      == [t[from]] + Substitute(m, replacement, LeftOf(left, t, from + 1), t[from + 1..])
    ensures Groups(m, LeftOf(left, t, from), t[from..]) == Groups(m, LeftOf(left, t, from + 1), t[from + 1..])
  {
    assert t[from..][1..] == t[from + 1..];
  }

  lemma StepAtHead(m: Matcher, replacement: string -> string, left: Option<char>, here: string, group: nat, end: nat)
    requires Bounded(m) && m(left, here) == Some(Match(group, end)) && here != "" && group < end <= |here|
    ensures Substitute(m, replacement, left, here)
      == replacement(here[group..end]) + Substitute(m, replacement, Some(here[end - 1]), here[end..])
    ensures Groups(m, left, here) == [here[group..end]] + Groups(m, Some(here[end - 1]), here[end..])
  {
  }

  /** One step of the substitution at a match. */
  lemma StepAt(m: Matcher, replacement: string -> string, left: Option<char>, t: string, cut: Cut)
    requires Bounded(m) && cut.at <= cut.group < cut.end <= |t| && Matched(m, left, t, cut)
    ensures Substitute(m, replacement, LeftOf(left, t, cut.at), t[cut.at..])
      == replacement(t[cut.group..cut.end]) + Substitute(m, replacement, LeftOf(left, t, cut.end), t[cut.end..])
    ensures Groups(m, LeftOf(left, t, cut.at), t[cut.at..])
      == [t[cut.group..cut.end]] + Groups(m, LeftOf(left, t, cut.end), t[cut.end..])
  {
    var here, group, end := t[cut.at..], cut.group - cut.at, cut.end - cut.at;
    StepAtHead(m, replacement, LeftOf(left, t, cut.at), here, group, end);
    SameEnd(here, t, cut.at, group, end);
    assert here[group..end] == t[cut.group..cut.end] && here[end..] == t[cut.end..];
    assert LeftOf(left, t, cut.end) == Some(here[end - 1]);
  }

  /** The substitution and its groups from here on are told by these cuts. */
  ghost predicate Splits(
    m: Matcher, replacement: string -> string, left: Option<char>, t: string, from: nat, cuts: seq<Cut>)
  {
    && Bounded(m) && InOrder(t, from, cuts) && Cuts(m, left, t, from, cuts)
    && Substitute(m, replacement, LeftOf(left, t, from), t[from..]) == Rebuilt(t, from, cuts, replacement)
    && Groups(m, LeftOf(left, t, from), t[from..]) == Captured(t, from, cuts)
  }

  lemma SplitsSkip(
    m: Matcher, replacement: string -> string, left: Option<char>, t: string, from: nat, cuts: seq<Cut>)
    requires from < |t| && m(LeftOf(left, t, from), t[from..]).None?
    requires Splits(m, replacement, left, t, from + 1, cuts)
    ensures Splits(m, replacement, left, t, from, cuts)
  {
    StepOver(m, replacement, left, t, from);
    CutsSkip(m, left, t, from, cuts, replacement);
  }

  lemma SplitsStart(
    m: Matcher, replacement: string -> string, left: Option<char>, t: string, cut: Cut, rest: seq<Cut>)
    requires cut.at <= cut.group < cut.end <= |t| && Matched(m, left, t, cut)
    requires Splits(m, replacement, left, t, cut.end, rest)
    ensures Splits(m, replacement, left, t, cut.at, [cut] + rest)
  {
    StepAt(m, replacement, left, t, cut);
    CutsStart(m, left, t, cut, rest, replacement);
  }

  /** pattern.sub replaces exactly the leftmost greedy matches and copies the rest. */
  lemma {:induction false} SubstituteSplits(
    m: Matcher, replacement: string -> string, left: Option<char>, t: string, from: nat) returns (cuts: seq<Cut>)
    requires Bounded(m) && from <= |t|
    ensures Splits(m, replacement, left, t, from, cuts)
    decreases |t| - from
  {
    if from == |t| {
      cuts := [];
    } else {
      match m(LeftOf(left, t, from), t[from..])
      case None =>
        cuts := SubstituteSplits(m, replacement, left, t, from + 1);
        SplitsSkip(m, replacement, left, t, from, cuts);
      case Some(Match(group, end)) =>
        var cut := Cut(from, from + group, from + end);
        var rest := SubstituteSplits(m, replacement, left, t, cut.end);
        SplitsStart(m, replacement, left, t, cut, rest);
        cuts := [cut] + rest;
    }
  }

  lemma SameEnd(here: string, t: string, from: nat, group: nat, end: nat)
    requires from <= |t| && here == t[from..] && group < end <= |here|
    ensures here[group..end] == t[from + group..from + end] && here[end..] == t[from + end..]
    ensures here[end - 1] == t[from + end - 1]
  {
  }

  /** A text has one such list of cuts. */
  lemma {:induction false} CutsAreUnique(
    m: Matcher, left: Option<char>, t: string, from: nat, a: seq<Cut>, b: seq<Cut>)
    requires InOrder(t, from, a) && InOrder(t, from, b)
    requires Cuts(m, left, t, from, a) && Cuts(m, left, t, from, b)
    ensures a == b
    decreases |a|
  {
    if a != [] && b != [] {
      assert a[0] == b[0];
      CutsAreUnique(m, left, t, a[0].end, a[1..], b[1..]);
      assert a == [a[0]] + a[1..] && b == [b[0]] + b[1..];
    }
  }

  /** Nothing captured means nothing changed. */
  lemma {:induction false} NoGroupsNoChange(m: Matcher, replacement: string -> string, left: Option<char>, t: string)
    requires Bounded(m) && Groups(m, left, t) == []
    ensures Substitute(m, replacement, left, t) == t && Clean(m, left, t)
    decreases |t|
  {
    if t != "" { NoGroupsNoChange(m, replacement, Some(t[0]), t[1..]); }
  }

  /** Ten characters for each match: the output is at most three characters longer
      per seven of the input, and no longer at all if matches have ten or more. */
  lemma {:induction false} SubstituteGrowth(m: Matcher, replacement: string -> string, left: Option<char>, t: string,
      n: nat)
    requires Bounded(m) && (n == 7 || n == 10)
    requires forall l, u :: m(l, u).Some? ==> m(l, u).value.end >= n
    requires forall s :: |replacement(s)| == 10
    ensures n * |Substitute(m, replacement, left, t)| <= 10 * |t|
    decreases |t|
  {
    if t != "" {
      var size := |Substitute(m, replacement, left, t)|;
      match m(left, t)
      case Some(Match(group, end)) =>
        var rest := t[end..];
        SubstituteGrowth(m, replacement, Some(t[end - 1]), rest, n);
        var more := |Substitute(m, replacement, Some(t[end - 1]), rest)|;
        assert size == |replacement(t[group..end])| + more == 10 + more;
        assert end >= n && |rest| == |t| - end;
      case None =>
        SubstituteGrowth(m, replacement, Some(t[0]), t[1..], n);
        assert size == 1 + |Substitute(m, replacement, Some(t[0]), t[1..])|;
    }
  }
}
