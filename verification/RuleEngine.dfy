/** The blocking-rule evaluator (security/rules.py) and the rule entity it reads
    (domain/security.py). */
module RuleEngine {
  import opened Options
  import opened Text
  import opened JsonValues
  import opened RiskEngine
  import Sorting

  // ------------------------------------------------------------ JSON paths

  /** str.split("."): the parts between the dots, at least one. */
  function Split(text: string): (parts: seq<string>)
    ensures parts != []
  {
    if text == "" then [""]
    else
      var rest := Split(text[1..]);
      if text[0] == '.' then [""] + rest else [[text[0]] + rest[0]] + rest[1..]
  }

  function Join(parts: seq<string>): string {
    if parts == [] then "" else if |parts| == 1 then parts[0] else parts[0] + "." + Join(parts[1..])
  }

  lemma {:induction false} SplitInvertsJoin(text: string)
    ensures Join(Split(text)) == text
    ensures forall i :: 0 <= i < |Split(text)| ==> '.' !in Split(text)[i]
  {
    if text != "" {
      SplitInvertsJoin(text[1..]);
      var rest := Split(text[1..]);
      assert text == [text[0]] + text[1..];
      if text[0] == '.' {
        assert Split(text)[1..] == rest;
      } else if |rest| > 1 {
        assert Split(text)[1..] == rest[1..];
        assert rest == [rest[0]] + rest[1..];
      }
    }
  }

  /** Where one path component leads; None when it leads nowhere. */
  function Descend(v: Json, component: string): Option<Json> {
    match v
    case Obj(fields) => MemberOf(fields, component)
    case Arr(items) =>
      if component != "" && AllDigits(component) && DigitsValue(component) < |items|
      then Some(items[DigitsValue(component)])
      else None
    case _ => None
  }

  function Resolve(v: Json, parts: seq<string>): Option<Json>
    decreases |parts|
  {
    if parts == [] then Some(v)
    else match Descend(v, parts[0])
      case None => None
      case Some(next) => Resolve(next, parts[1..])
  }

  /** Following one path and then another is following both. */
  lemma {:induction false} PathsCompose(v: Json, a: seq<string>, b: seq<string>)
    ensures Resolve(v, a + b) == if Resolve(v, a).Some? then Resolve(Resolve(v, a).value, b) else None
    decreases |a|
  {
    if a == [] {
      assert a + b == b;
    } else {
      assert (a + b)[1..] == a[1..] + b && (a + b)[0] == a[0];
      if Descend(v, a[0]).Some? { PathsCompose(Descend(v, a[0]).value, a[1..], b); }
    }
  }

  function RemovePrefix(text: string, prefix: string): string {
    if prefix <= text then text[|prefix|..] else text
  }

  function PathParts(path: string): seq<string> {
    var normalized := RemovePrefix(RemovePrefix(path, "$."), "$");
    if normalized == "" then [] else Split(normalized)
  }

  /** A missing value and a JSON null are both None to the caller. */
  function ValueAt(v: Json, path: string): Json {
    match Resolve(v, PathParts(path))
    case None => Null
    case Some(found) => found
  }

  /** json_path_value: the loop over components, leaving at the first dead end. */
  method JsonPathValue(value: Json, path: string) returns (r: Json)
    ensures r == ValueAt(value, path)
  {
    var normalized := RemovePrefix(RemovePrefix(path, "$."), "$");
    if normalized == "" { return value; }
    var parts := Split(normalized);
    var current := value;
    for n := 0 to |parts|
      invariant Resolve(value, parts) == Resolve(current, parts[n..])
    {
      match current {
        case Obj(fields) =>
          var entry := MemberOf(fields, parts[n]);
          if entry.None? { return Null; }
          current := entry.value;
        case Arr(items) =>
          if parts[n] == "" || !AllDigits(parts[n]) { return Null; }
          var index := DigitsValue(parts[n]);
          if index >= |items| { return Null; }
          current := items[index];
        case _ =>
          return Null;
      }
    }
    return current;
  }

  // ------------------------------------------------- what a path leads to

  predicate Dotless(parts: seq<string>) { forall i :: 0 <= i < |parts| ==> '.' !in parts[i] }

  lemma {:induction false} SplitFirst(head: string, rest: string)
    requires '.' !in head
    ensures Split(head) == [head]
    ensures Split(head + "." + rest) == [head] + Split(rest)
  {
    var text := head + "." + rest;
    if head == "" {
      assert text[1..] == rest;
    } else {
      SplitFirst(head[1..], rest);
      assert text[1..] == head[1..] + "." + rest;
      assert head == [head[0]] + head[1..];
      assert ([head[1..]] + Split(rest))[1..] == Split(rest);
    }
  }

  lemma {:induction false} JoinInvertsSplit(parts: seq<string>)
    requires parts != [] && Dotless(parts)
    ensures Split(Join(parts)) == parts
  {
    assert parts == [parts[0]] + parts[1..];
    if |parts| == 1 {
      SplitFirst(parts[0], "");
    } else {
      JoinInvertsSplit(parts[1..]);
      SplitFirst(parts[0], Join(parts[1..]));
    }
  }

  /** A path written from the root, with or without its dot, or without a root: each
      leads where its components lead, and to null when they lead nowhere. */
  lemma PathsFromTheRoot(v: Json, parts: seq<string>)
    requires parts != [] && Dotless(parts) && Join(parts) != "" && Join(parts)[0] != '$'
    ensures var found := if Resolve(v, parts).Some? then Resolve(v, parts).value else Null;
      && ValueAt(v, "$." + Join(parts)) == found
      && ValueAt(v, Join(parts)) == found
      && (Join(parts)[0] != '.' ==> ValueAt(v, "$" + Join(parts)) == found)
  {
    var path := Join(parts);
    JoinInvertsSplit(parts);
    assert ("$." + path)[2..] == path && "$." <= "$." + path;
    assert ("$" + path)[1..] == path && "$" <= "$" + path;
    assert !("$" <= path) && !("$." <= path);
    if path[0] != '.' { assert ("$" + path)[1] == path[0]; }
  }

  lemma RootIsTheValue(v: Json)
    ensures ValueAt(v, "$") == v && ValueAt(v, "$.") == v && ValueAt(v, "") == v
  {
    assert "$"[1..] == "" && "$."[2..] == "" && !("$." <= "$") && !("$." <= "");
  }

  /** $.key is the member of an object under that key, null if there is none. */
  lemma RootMember(fields: seq<Field>, key: string)
    requires DistinctKeys(fields) && key != "" && key[0] != '$' && '.' !in key
    ensures forall i :: 0 <= i < |fields| && fields[i].key == key ==>
      ValueAt(Obj(fields), "$." + key) == fields[i].value
    ensures (forall i :: 0 <= i < |fields| ==> fields[i].key != key) ==> ValueAt(Obj(fields), "$." + key) == Null
  {
    PathsFromTheRoot(Obj(fields), [key]);
    MemberOfExactly(fields, key);
    assert Resolve(Obj(fields), [key]) == MemberOf(fields, key);
  }

  /** $.n is the element of a list at that index, null beyond its end. */
  lemma RootElement(items: seq<Json>, n: nat)
    ensures ValueAt(Arr(items), "$." + Decimal(n)) == if n < |items| then items[n] else Null
  {
    DecimalValue(n);
    assert forall i :: 0 <= i < |Decimal(n)| ==> IsDigit(Decimal(n)[i]);
    PathsFromTheRoot(Arr(items), [Decimal(n)]);
  }

  // ----------------------------------------------------------------- rules

  datatype Action = Allow | Flag | Block {
    function Rank(): nat { match this case Allow => 0 case Flag => 1 case Block => 2 }
  }

  /** The conditions are the JSON object the rule was stored with. */
  datatype Rule = Rule(
    id: nat, name: string, enabled: bool, priority: int, pattern: string, conditions: seq<Field>, action: Action)

  /** Wildcards, regular expressions and Python's equality of JSON values. */
  datatype Matchers = Matchers(
    glob: (string, string) -> bool,
    regex: (string, string) -> bool,
    equal: (Json, Json) -> bool,
    compiles: string -> bool)

  /** What a rule is evaluated against. */
  datatype Subject = Subject(tool: string, risk: RiskLevel, flags: seq<RiskFlag>, arguments: Json, resultPhase: bool)

  const SUPPORTED := {
    "tool_equals", "tool_matches", "risk_at_least", "has_flag", "argument_path_equals", "argument_path_matches",
    "result_has_flag"}

  function LevelOf(text: string): Option<RiskLevel> {
    if text == "low" then Some(Low)
    else if text == "medium" then Some(Medium)
    else if text == "high" then Some(High)
    else if text == "critical" then Some(Critical)
    else None
  }

  /** What _validate_conditions accepts for one entry. */
  predicate ValidCondition(m: Matchers, key: string, value: Json) {
    && key in SUPPORTED
    && (if key == "argument_path_equals" || key == "argument_path_matches" then
          && Member(value, "path").Some? && Member(value, "path").value.Str?
          && Member(value, "value").Some?
          && (key == "argument_path_matches" && Member(value, "value").value.Str? ==>
                m.compiles(Member(value, "value").value.text))
        else
          && value.Str?
          && (key == "risk_at_least" ==> LevelOf(value.text).Some?)
          && (key == "tool_matches" ==> m.compiles(value.text)))
  }

  /** What BlockingRule.__post_init__ leaves standing. */
  predicate ValidRule(m: Matchers, rule: Rule) {
    && rule.conditions != []
    && (forall i :: 0 <= i < |rule.conditions| ==> ValidCondition(m, rule.conditions[i].key, rule.conditions[i].value))
    && !(rule.action == Block && MemberOf(rule.conditions, "result_has_flag").Some?)
  }

  function Codes(flags: seq<RiskFlag>): set<string> { set f | f in flags :: CodeText(f.code) }

  /** The meaning of one stored condition. */
  predicate Holds(m: Matchers, key: string, expected: Json, s: Subject)
    requires ValidCondition(m, key, expected)
  {
    if key == "tool_equals" then s.tool == expected.text
    else if key == "tool_matches" then m.regex(expected.text, s.tool)
    else if key == "risk_at_least" then s.risk.Rank() >= LevelOf(expected.text).value.Rank()
    else if key == "has_flag" then !s.resultPhase && expected.text in Codes(s.flags)
    else if key == "result_has_flag" then s.resultPhase && expected.text in Codes(s.flags)
    else
      var actual := ValueAt(s.arguments, Member(expected, "path").value.text);
      var target := Member(expected, "value").value;
      if key == "argument_path_equals" then m.equal(actual, target)
      else actual.Str? && target.Str? && m.regex(target.text, actual.text)
  }

  /** _conditions_match: every condition holds. */
  method ConditionsMatch(m: Matchers, rule: Rule, s: Subject) returns (matched: bool)
    requires ValidRule(m, rule)
    ensures matched <==> forall i :: 0 <= i < |rule.conditions| ==>
      Holds(m, rule.conditions[i].key, rule.conditions[i].value, s)
  {
    var codes := Codes(s.flags);
    for n := 0 to |rule.conditions|
      invariant forall i :: 0 <= i < n ==> Holds(m, rule.conditions[i].key, rule.conditions[i].value, s)
    {
      var holds := ConditionHolds(m, rule.conditions[n].key, rule.conditions[n].value, s, codes);
      if !holds { return false; }
    }
    return true;
  }

  /** The body of the loop over conditions: every test that can fail one. */
  method ConditionHolds(m: Matchers, key: string, expected: Json, s: Subject, codes: set<string>) returns (b: bool)
    requires ValidCondition(m, key, expected) && codes == Codes(s.flags)
    ensures b == Holds(m, key, expected, s)
  {
    if key == "tool_equals" && (!expected.Str? || s.tool != expected.text) { return false; }
    if key == "tool_matches" && (!expected.Str? || !m.regex(expected.text, s.tool)) { return false; }
    if key == "risk_at_least" && (!expected.Str? || !RiskAtLeast(s.risk, LevelOf(expected.text).value)) {
      return false;
    }
    if key == "has_flag" && (s.resultPhase || !expected.Str? || expected.text !in codes) { return false; }
    if key == "result_has_flag" && (!s.resultPhase || !expected.Str? || expected.text !in codes) { return false; }
    if key == "argument_path_equals" || key == "argument_path_matches" {
      var path := Member(expected, "path");
      var target := Member(expected, "value").value;
      if path.None? || !path.value.Str? { return false; }
      var actual := JsonPathValue(s.arguments, path.value.text);
      if key == "argument_path_equals" && !m.equal(actual, target) { return false; }
      if key == "argument_path_matches" && (!actual.Str? || !target.Str? || !m.regex(target.text, actual.text)) {
        return false;
      }
    }
    return true;
  }

  /** An enabled rule for this tool whose every condition holds. */
  predicate Applies(m: Matchers, s: Subject, rule: Rule) {
    && ValidRule(m, rule)
    && rule.enabled
    && m.glob(s.tool, rule.pattern)
    && forall i :: 0 <= i < |rule.conditions| ==> Holds(m, rule.conditions[i].key, rule.conditions[i].value, s)
  }

  // ------------------------------------------------------------ evaluation

  /** (-priority, name, str(id)): identifiers compare as their texts do. */
  predicate Precedes(a: Rule, b: Rule) {
    || a.priority > b.priority
    || (a.priority == b.priority && (
          || (Leq(a.name, b.name) && a.name != b.name)
          || (a.name == b.name && a.id <= b.id)))
  }

  lemma PrecedesRanks()
    ensures Sorting.Ranking(Precedes)
  {
    LeqIsTotalOrder();
  }

  ghost predicate DistinctIds(rules: seq<Rule>) { forall i, j :: 0 <= i < j < |rules| ==> rules[i].id != rules[j].id }

  datatype RuleMatch = RuleMatch(rule: nat, name: string, action: Action, priority: int)

  function MatchOf(rule: Rule): RuleMatch { RuleMatch(rule.id, rule.name, rule.action, rule.priority) }

  datatype Evaluation = Evaluation(action: Action, matches: seq<RuleMatch>)

  /** An applying block rule stops an input-phase evaluation at itself. */
  ghost predicate Stops(m: Matchers, s: Subject, rule: Rule) {
    !s.resultPhase && rule.action == Block && Applies(m, s, rule)
  }

  /** A rule is reported when it applies and no stopping rule comes before it. */
  ghost predicate Reported(m: Matchers, s: Subject, rules: seq<Rule>, rule: Rule) {
    && rule in rules
    && Applies(m, s, rule)
    && forall b :: b in rules && Stops(m, s, b) && b != rule ==> !Precedes(b, rule)
  }

  /** The order-free meaning of an evaluation's action: the maximum over all
      applying rules, a block counting only in the input phase. */
  ghost predicate IsDecision(m: Matchers, s: Subject, rules: seq<Rule>, action: Action) {
    && (action == Block <==> exists r :: r in rules && Stops(m, s, r))
    && (action == Flag ==> exists r :: r in rules && Applies(m, s, r) && r.action == Flag)
    && (action == Allow ==> forall r :: r in rules && Applies(m, s, r) ==> r.action != Flag)
  }

  /** The order-free meaning of a whole evaluation. */
  ghost predicate Evaluates(m: Matchers, s: Subject, rules: seq<Rule>, reported: seq<Rule>, action: Action) {
    && IsDecision(m, s, rules, action)
    && Sorting.SortedBy(Precedes, reported)
    && Sorting.Distinct(reported)
    && forall r :: r in reported <==> Reported(m, s, rules, r)
  }

  function MatchesOf(rules: seq<Rule>): (r: seq<RuleMatch>)
    ensures |r| == |rules| && forall i :: 0 <= i < |r| ==> r[i] == MatchOf(rules[i])
  {
    seq(|rules|, i requires 0 <= i < |rules| => MatchOf(rules[i]))
  }

  /** evaluate_rules: the loop over the sorted rules, left at the first input-phase block. */
  method EvaluateRules(m: Matchers, rules: seq<Rule>, s: Subject) returns (e: Evaluation, ghost reported: seq<Rule>)
    requires forall r :: r in rules ==> ValidRule(m, r)
    ensures e.matches == MatchesOf(reported)
    ensures IsDecision(m, s, rules, e.action)
    ensures DistinctIds(rules) ==> Evaluates(m, s, rules, reported, e.action)
  {
    var ordered := Sorting.Sort(Precedes, rules);
    SortedRules(rules);
    ghost var seen;
    e, reported, seen := Scan(m, ordered, s);
    ScanConcludes(m, s, rules, ordered, seen, reported, e.action);
  }

  method Scan(m: Matchers, ordered: seq<Rule>, s: Subject)
    returns (e: Evaluation, ghost reported: seq<Rule>, ghost seen: nat)
    requires forall r :: r in ordered ==> ValidRule(m, r)
    ensures e.matches == MatchesOf(reported) && Ended(m, s, ordered, seen, reported, e.action)
  {
    var matches: seq<RuleMatch> := [];
    var action := Allow;
    reported := [];
    for n := 0 to |ordered|
      invariant Scanned(m, s, ordered, n, reported, action)
      invariant matches == MatchesOf(reported)
    {
      var rule := ordered[n];
      ScanStep(m, s, ordered, n, reported, action);
      var matched := RuleMatches(m, rule, s);
      if matched {
        matches := matches + [MatchOf(rule)];
        reported := reported + [rule];
        if rule.action == Block && !s.resultPhase {
          return Evaluation(Block, matches), reported, n + 1;
        }
        if rule.action == Flag { action := Flag; }
      }
    }
    return Evaluation(action, matches), reported, |ordered|;
  }

  /** The two tests that skip a rule. */
  method RuleMatches(m: Matchers, rule: Rule, s: Subject) returns (matched: bool)
    requires ValidRule(m, rule)
    ensures matched == Applies(m, s, rule)
  {
    if !rule.enabled || !m.glob(s.tool, rule.pattern) { return false; }
    matched := ConditionsMatch(m, rule, s);
  }

  lemma SortedRules(rules: seq<Rule>)
    ensures Sorting.SortedBy(Precedes, Sorting.Sort(Precedes, rules))
    ensures forall r :: r in rules <==> r in Sorting.Sort(Precedes, rules)
    ensures DistinctIds(rules) ==> Sorting.Distinct(Sorting.Sort(Precedes, rules))
    ensures DistinctIds(rules) ==> Sorting.NoTies(Precedes, rules)
  {
    PrecedesRanks();
    Sorting.SortSorts(Precedes, rules);
    Sorting.SortKeepsElements(Precedes, rules);
    var ordered := Sorting.Sort(Precedes, rules);
    forall r ensures r in rules <==> r in ordered {
      assert r in rules <==> r in multiset(rules);
      assert r in ordered <==> r in multiset(ordered);
    }
    if DistinctIds(rules) {
      Sorting.RearrangementDistinct(rules, ordered);
      NoTiesAmongIds(rules);
    }
  }

  lemma NoTiesAmongIds(rules: seq<Rule>)
    requires DistinctIds(rules)
    ensures Sorting.NoTies(Precedes, rules)
  {
    LeqIsTotalOrder();
    forall a, b | a in rules && b in rules && Precedes(a, b) && Precedes(b, a) ensures a == b {
      assert a.name == b.name && a.id == b.id;
    }
  }

  /** The applying rules of a list, in its order. */
  ghost function Applying(m: Matchers, s: Subject, rules: seq<Rule>): seq<Rule> {
    if rules == [] then []
    else
      var last := rules[|rules| - 1];
      Applying(m, s, rules[..|rules| - 1]) + if Applies(m, s, last) then [last] else []
  }

  lemma {:induction false} ApplyingElements(m: Matchers, s: Subject, rules: seq<Rule>)
    ensures forall r :: r in Applying(m, s, rules) <==> r in rules && Applies(m, s, r)
    ensures Sorting.SortedBy(Precedes, rules) ==> Sorting.SortedBy(Precedes, Applying(m, s, rules))
    ensures Sorting.Distinct(rules) ==> Sorting.Distinct(Applying(m, s, rules))
  {
    if rules != [] {
      var front, last := rules[..|rules| - 1], rules[|rules| - 1];
      assert rules == front + [last];
      ApplyingElements(m, s, front);
      var kept := Applying(m, s, front);
      assert forall r :: r in rules <==> r in front || r == last;
      if Sorting.SortedBy(Precedes, rules) {
        forall i | 0 <= i < |kept| ensures Precedes(kept[i], last) {
          assert kept[i] in front;
          var k :| 0 <= k < |front| && front[k] == kept[i];
        }
      }
    }
  }

  /** The loop after n rules: everything applying so far is reported, and only the
      last rule seen can have stopped it. */
  ghost predicate Scanned(
    m: Matchers, s: Subject, ordered: seq<Rule>, n: nat, reported: seq<Rule>, action: Action)
  {
    && n <= |ordered|
    && reported == Applying(m, s, ordered[..n])
    && (forall i :: 0 <= i < n ==> !Stops(m, s, ordered[i]))
    && action == if exists r :: r in reported && r.action == Flag then Flag else Allow
  }

  /** The loop ran out of rules, or its last rule stopped it. */
  ghost predicate Ended(m: Matchers, s: Subject, ordered: seq<Rule>, n: nat, reported: seq<Rule>, action: Action) {
    || (n == |ordered| && Scanned(m, s, ordered, n, reported, action))
    || (&& 0 < n <= |ordered| && reported == Applying(m, s, ordered[..n]) && action == Block
        && Stops(m, s, ordered[n - 1]) && forall i :: 0 <= i < n - 1 ==> !Stops(m, s, ordered[i]))
  }

  lemma ScanStep(m: Matchers, s: Subject, ordered: seq<Rule>, n: nat, reported: seq<Rule>, action: Action)
    requires n < |ordered| && Scanned(m, s, ordered, n, reported, action)
    ensures !Applies(m, s, ordered[n]) ==> Scanned(m, s, ordered, n + 1, reported, action)
    ensures Stops(m, s, ordered[n]) ==> Ended(m, s, ordered, n + 1, reported + [ordered[n]], Block)
    ensures Applies(m, s, ordered[n]) && !Stops(m, s, ordered[n]) ==>
      Scanned(m, s, ordered, n + 1, reported + [ordered[n]], if ordered[n].action == Flag then Flag else action)
  {
    var next := ordered[..n + 1];
    assert next[..n] == ordered[..n] && next[n] == ordered[n];
    assert Applying(m, s, next) == reported + if Applies(m, s, ordered[n]) then [ordered[n]] else [];
    var more := reported + [ordered[n]];
    assert more[|reported|] == ordered[n];
    assert forall r :: r in more <==> r in reported || r == ordered[n];
  }

  lemma ScanConcludes(
    m: Matchers, s: Subject, rules: seq<Rule>, ordered: seq<Rule>, n: nat, reported: seq<Rule>, action: Action)
    requires ordered == Sorting.Sort(Precedes, rules) && Ended(m, s, ordered, n, reported, action)
    ensures IsDecision(m, s, rules, action)
    ensures DistinctIds(rules) ==> Evaluates(m, s, rules, reported, action)
  {
    SortedRules(rules);
    ApplyingElements(m, s, ordered[..n]);
    if n == |ordered| { assert ordered[..n] == ordered; }
    if action == Block && Ended(m, s, ordered, n, reported, action) && !Scanned(m, s, ordered, n, reported, action) {
      assert ordered[n - 1] in ordered && Stops(m, s, ordered[n - 1]);
    }
    if DistinctIds(rules) {
      forall r ensures r in reported <==> Reported(m, s, rules, r) {
        ReportedExactly(m, s, rules, ordered, n, reported, action, r);
      }
    }
  }

  lemma SeenIsReported(
    m: Matchers, s: Subject, rules: seq<Rule>, ordered: seq<Rule>, n: nat, reported: seq<Rule>, action: Action, r: Rule)
    requires Sorting.SortedBy(Precedes, ordered) && Sorting.NoTies(Precedes, rules)
    requires (forall x :: x in rules <==> x in ordered) && Ended(m, s, ordered, n, reported, action)
    requires r in reported
    ensures Reported(m, s, rules, r)
  {
    ApplyingElements(m, s, ordered[..n]);
    var k :| 0 <= k < n && ordered[..n][k] == r;
    forall b | b in rules && Stops(m, s, b) && b != r ensures !Precedes(b, r) {
      var j :| 0 <= j < |ordered| && ordered[j] == b;
      assert j > k && Precedes(r, b);
    }
  }

  lemma ReportedIsSeen(
    m: Matchers, s: Subject, rules: seq<Rule>, ordered: seq<Rule>, n: nat, reported: seq<Rule>, action: Action, r: Rule)
    requires Sorting.SortedBy(Precedes, ordered)
    requires (forall x :: x in rules <==> x in ordered) && Ended(m, s, ordered, n, reported, action)
    requires Reported(m, s, rules, r)
    ensures r in reported
  {
    ApplyingElements(m, s, ordered[..n]);
    var k :| 0 <= k < |ordered| && ordered[k] == r;
    if k < n {
      assert ordered[..n][k] == r;
    } else {
      assert ordered[n - 1] in ordered;
      assert Stops(m, s, ordered[n - 1]) && Precedes(ordered[n - 1], r);
    }
  }

  lemma ReportedExactly(
    m: Matchers, s: Subject, rules: seq<Rule>, ordered: seq<Rule>, n: nat, reported: seq<Rule>, action: Action, r: Rule)
    requires ordered == Sorting.Sort(Precedes, rules) && Ended(m, s, ordered, n, reported, action)
    requires DistinctIds(rules)
    ensures r in reported <==> Reported(m, s, rules, r)
  {
    SortedRules(rules);
    if r in reported { SeenIsReported(m, s, rules, ordered, n, reported, action, r); }
    if Reported(m, s, rules, r) { ReportedIsSeen(m, s, rules, ordered, n, reported, action, r); }
  }

  /** Two evaluations of the same rules in any order and any repetition agree. */
  lemma EvaluationIsOrderFree(
    m: Matchers, s: Subject, rules: seq<Rule>, others: seq<Rule>,
    reported: seq<Rule>, reportedOthers: seq<Rule>, action: Action, actionOthers: Action)
    requires DistinctIds(rules) && (forall r :: r in rules <==> r in others)
    requires Evaluates(m, s, rules, reported, action) && Evaluates(m, s, others, reportedOthers, actionOthers)
    ensures action == actionOthers && reported == reportedOthers
  {
    forall r ensures r in reported <==> r in reportedOthers {
      assert Reported(m, s, rules, r) <==> Reported(m, s, others, r);
    }
    Sorting.DistinctCounts(reported);
    Sorting.DistinctCounts(reportedOthers);
    SameElements(reported, reportedOthers);
    NoTiesAmongIds(rules);
    Sorting.SortedListingsAgree(Precedes, reported, reportedOthers);
  }

  lemma SameElements<T>(xs: seq<T>, ys: seq<T>)
    requires forall x :: x in xs <==> x in ys
    requires (forall x :: multiset(xs)[x] <= 1) && (forall x :: multiset(ys)[x] <= 1)
    ensures multiset(xs) == multiset(ys)
  {
    forall x ensures multiset(xs)[x] == multiset(ys)[x] {
      assert x in xs <==> x in multiset(xs);
      assert x in ys <==> x in multiset(ys);
    }
  }

  /** A result is never blocked, and every applying rule is reported for it. */
  lemma ResultsAreNotBlocked(m: Matchers, s: Subject, rules: seq<Rule>, reported: seq<Rule>, action: Action)
    requires Evaluates(m, s, rules, reported, action) && s.resultPhase
    ensures action != Block && forall r :: r in reported <==> r in rules && Applies(m, s, r)
  {
    forall r ensures r in reported <==> r in rules && Applies(m, s, r) {
      assert r in reported <==> Reported(m, s, rules, r);
    }
  }

  lemma LastMatchStops(m: Matchers, s: Subject, rules: seq<Rule>, reported: seq<Rule>)
    requires DistinctIds(rules) && Evaluates(m, s, rules, reported, Block)
    requires forall i :: 0 <= i < |reported| - 1 ==> !Stops(m, s, reported[i])
    ensures reported != [] && Stops(m, s, reported[|reported| - 1])
  {
    FirstStopIsReported(m, s, rules);
    var b :| b in rules && Stops(m, s, b) && Reported(m, s, rules, b);
    assert b in reported;
    var k :| 0 <= k < |reported| && reported[k] == b;
  }

  lemma LastMatchPasses(m: Matchers, s: Subject, rules: seq<Rule>, reported: seq<Rule>, action: Action)
    requires Evaluates(m, s, rules, reported, action) && action != Block && reported != []
    ensures !Stops(m, s, reported[|reported| - 1])
  {
    assert Reported(m, s, rules, reported[|reported| - 1]);
  }

  /** An evaluation's block is its last match; a result is never blocked. */
  lemma BlockComesLast(m: Matchers, s: Subject, rules: seq<Rule>, reported: seq<Rule>, action: Action)
    requires DistinctIds(rules) && Evaluates(m, s, rules, reported, action)
    ensures s.resultPhase ==> action != Block && forall r :: r in reported <==> r in rules && Applies(m, s, r)
    ensures action == Block <==> reported != [] && Stops(m, s, reported[|reported| - 1])
    ensures forall i :: 0 <= i < |reported| - 1 ==> !Stops(m, s, reported[i])
  {
    forall i | 0 <= i < |reported| - 1 ensures !Stops(m, s, reported[i]) {
      StopEndsReport(m, s, rules, reported, i);
    }
    if s.resultPhase { ResultsAreNotBlocked(m, s, rules, reported, action); }
    if action == Block {
      LastMatchStops(m, s, rules, reported);
    } else if reported != [] {
      LastMatchPasses(m, s, rules, reported, action);
    }
  }

  lemma StopEndsReport(m: Matchers, s: Subject, rules: seq<Rule>, reported: seq<Rule>, i: nat)
    requires i < |reported| - 1 && Sorting.SortedBy(Precedes, reported) && Sorting.Distinct(reported)
    requires forall r :: r in reported ==> Reported(m, s, rules, r)
    ensures !Stops(m, s, reported[i])
  {
    var earlier, later := reported[i], reported[i + 1];
    assert earlier in reported && later in reported && earlier != later && Precedes(earlier, later);
    assert Reported(m, s, rules, earlier) && Reported(m, s, rules, later);
  }

  lemma FirstStopIsReported(m: Matchers, s: Subject, rules: seq<Rule>)
    requires DistinctIds(rules) && exists r :: r in rules && Stops(m, s, r)
    ensures exists b :: b in rules && Stops(m, s, b) && Reported(m, s, rules, b)
  {
    SortedRules(rules);
    var r :| r in rules && Stops(m, s, r);
    FirstStopInOrder(m, s, rules, Sorting.Sort(Precedes, rules), r);
  }

  lemma FirstStopInOrder(m: Matchers, s: Subject, rules: seq<Rule>, ordered: seq<Rule>, r: Rule)
    requires Sorting.SortedBy(Precedes, ordered) && Sorting.NoTies(Precedes, rules)
    requires (forall x :: x in rules <==> x in ordered) && r in rules && Stops(m, s, r)
    ensures exists b :: b in rules && Stops(m, s, b) && Reported(m, s, rules, b)
  {
    var k :| 0 <= k < |ordered| && ordered[k] == r;
    var first := FirstStop(m, s, ordered, k);
    var b := ordered[first];
    assert b in ordered;
    forall c | c in rules && Stops(m, s, c) && c != b ensures !Precedes(c, b) {
      var j :| 0 <= j < |ordered| && ordered[j] == c;
      assert Precedes(b, c);
    }
  }

  ghost function FirstStop(m: Matchers, s: Subject, ordered: seq<Rule>, k: nat): (first: nat)
    requires k < |ordered| && Stops(m, s, ordered[k])
    ensures first <= k && Stops(m, s, ordered[first]) && forall i :: 0 <= i < first ==> !Stops(m, s, ordered[i])
  {
    if exists i :: 0 <= i < k && Stops(m, s, ordered[i]) then
      var i :| 0 <= i < k && Stops(m, s, ordered[i]);
      FirstStop(m, s, ordered, i)
    else k
  }

  // ------------------------------------------- what single conditions mean

  /** A rule with one condition applies when it is enabled, is for the tool, and the
      condition holds. */
  lemma OneCondition(m: Matchers, s: Subject, rule: Rule, key: string, expected: Json)
    requires ValidRule(m, rule) && rule.conditions == [Field(key, expected)]
    ensures ValidCondition(m, key, expected)
    ensures Applies(m, s, rule) <==> rule.enabled && m.glob(s.tool, rule.pattern) && Holds(m, key, expected, s)
  {
    assert rule.conditions[0] == Field(key, expected);
  }

  /** The risk thresholds, level by level. */
  lemma RiskThresholds(m: Matchers, s: Subject)
    ensures Holds(m, "risk_at_least", Str("low"), s)
    ensures Holds(m, "risk_at_least", Str("medium"), s) <==> s.risk != Low
    ensures Holds(m, "risk_at_least", Str("high"), s) <==> s.risk == High || s.risk == Critical
    ensures Holds(m, "risk_at_least", Str("critical"), s) <==> s.risk == Critical
  {
  }

  /** A flag condition asks for a flag of that code, has_flag of an input and
      result_has_flag of a result. */
  lemma FlagConditions(m: Matchers, s: Subject, code: FlagCode)
    ensures Holds(m, "has_flag", Str(CodeText(code)), s) <==> !s.resultPhase && HasCode(s.flags, code)
    ensures Holds(m, "result_has_flag", Str(CodeText(code)), s) <==> s.resultPhase && HasCode(s.flags, code)
  {
    if CodeText(code) in Codes(s.flags) {
      var f :| f in s.flags && CodeText(f.code) == CodeText(code);
      CodesFollowTexts(f.code, code);
      CodesFollowTexts(code, f.code);
      LeqTotal(CodeText(code), CodeText(code));
      CodesAreOrdered();
    }
    if HasCode(s.flags, code) {
      var f :| f in s.flags && f.code == code;
      assert CodeText(f.code) in Codes(s.flags);
    }
  }

  lemma ToolConditions(m: Matchers, s: Subject, text: string)
    requires m.compiles(text)
    ensures Holds(m, "tool_equals", Str(text), s) <==> s.tool == text
    ensures Holds(m, "tool_matches", Str(text), s) <==> m.regex(text, s.tool)
  {
  }

  /** The JSON object of a path condition. */
  function PathCondition(path: string, target: Json): Json { Obj([Field("path", Str(path)), Field("value", target)]) }

  lemma PathConditionSays(path: string, target: Json)
    ensures Member(PathCondition(path, target), "path") == Some(Str(path))
    ensures Member(PathCondition(path, target), "value") == Some(target)
  {
    var fields := [Field("path", Str(path)), Field("value", target)];
    assert fields[1..] == [Field("value", target)];
    assert |"path"| != |"value"|;
    assert MemberOf(fields[1..], "value") == Some(target);
  }

  /** A block rule on $.key stops an input exactly when the member under that key
      equals the target, or matches the expression. */
  lemma RootRuleStops(m: Matchers, s: Subject, rule: Rule, fields: seq<Field>, i: nat, target: Json)
    requires s.arguments == Obj(fields) && DistinctKeys(fields) && i < |fields|
    requires fields[i].key != "" && fields[i].key[0] != '$' && '.' !in fields[i].key
    requires ValidRule(m, rule) && rule.action == Block && !s.resultPhase
    ensures rule.conditions == [Field("argument_path_equals", PathCondition("$." + fields[i].key, target))] ==>
      (Stops(m, s, rule) <==> rule.enabled && m.glob(s.tool, rule.pattern) && m.equal(fields[i].value, target))
    ensures rule.conditions == [Field("argument_path_matches", PathCondition("$." + fields[i].key, target))] ==>
      (Stops(m, s, rule) <==>
        && rule.enabled && m.glob(s.tool, rule.pattern)
        && fields[i].value.Str? && target.Str? && m.regex(target.text, fields[i].value.text))
  {
    var expected := PathCondition("$." + fields[i].key, target);
    RootMember(fields, fields[i].key);
    PathConditionSays("$." + fields[i].key, target);
    if rule.conditions == [Field("argument_path_equals", expected)] {
      OneCondition(m, s, rule, "argument_path_equals", expected);
    }
    if rule.conditions == [Field("argument_path_matches", expected)] {
      OneCondition(m, s, rule, "argument_path_matches", expected);
    }
  }

  // ------------------------------------------------ what priorities decide

  /** Higher priorities come first, and names in text order among equals. Nothing
      beyond an applying block rule is reported, and everything before all of them is. */
  lemma PriorityDecides(
    m: Matchers, s: Subject, rules: seq<Rule>, reported: seq<Rule>, action: Action, r: Rule, b: Rule)
    requires Evaluates(m, s, rules, reported, action)
    ensures forall i, j :: 0 <= i < j < |reported| ==>
      reported[i].priority > reported[j].priority
      || (reported[i].priority == reported[j].priority && Leq(reported[i].name, reported[j].name))
    ensures b in rules && Stops(m, s, b) && r in reported ==> r.priority >= b.priority
    ensures r in rules && Applies(m, s, r) && (forall c :: c in rules && Stops(m, s, c) ==> r.priority > c.priority)
      ==> r in reported
  {
    LeqIsTotalOrder();
    forall i, j | 0 <= i < j < |reported|
      ensures reported[i].priority > reported[j].priority
        || (reported[i].priority == reported[j].priority && Leq(reported[i].name, reported[j].name))
    {
      assert Precedes(reported[i], reported[j]);
    }
    if b in rules && Stops(m, s, b) && r in reported {
      assert Reported(m, s, rules, r);
    }
    if r in rules && Applies(m, s, r) && (forall c :: c in rules && Stops(m, s, c) ==> r.priority > c.priority) {
      assert Reported(m, s, rules, r);
    }
  }
}
