/** Deterministic risk classification (security/risk.py, domain/security.py). */
module RiskEngine {
  import opened Options
  import opened Text
  import opened JsonValues
  import Sorting

  // ---------------------------------------------------------------- levels

  datatype RiskLevel = Low | Medium | High | Critical {
    function Rank(): nat {
      match this
      case Low => 0
      case Medium => 1
      case High => 2
      case Critical => 3
    }
  }

  /** risk_max of two levels */
  function RiskMax(a: RiskLevel, b: RiskLevel): (m: RiskLevel) {
    if a.Rank() < b.Rank() then b else a
  }

  /** risk_at_least: the maximum of the two is the value itself. */
  predicate RiskAtLeast(value: RiskLevel, threshold: RiskLevel) { RiskMax(value, threshold) == value }

  // ----------------------------------------------------------------- flags

  datatype FlagCode =
    | WriteOperation | ExternalSideEffect | SensitiveInput | SensitiveOutput | DestructiveSql | WriteSql
    | MultipleSqlStatements | PossibleCommandInjection | PossiblePathTraversal | PossibleSsrfTarget
    | PossibleIndirectPromptInjection | OversizedPayload | UnknownOperation

  function CodeText(code: FlagCode): string {
    match code
    case WriteOperation => "write_operation"
    case ExternalSideEffect => "external_side_effect"
    case SensitiveInput => "sensitive_input"
    case SensitiveOutput => "sensitive_output"
    case DestructiveSql => "destructive_sql"
    case WriteSql => "write_sql"
    case MultipleSqlStatements => "multiple_sql_statements"
    case PossibleCommandInjection => "possible_command_injection"
    case PossiblePathTraversal => "possible_path_traversal"
    case PossibleSsrfTarget => "possible_ssrf_target"
    case PossibleIndirectPromptInjection => "possible_indirect_prompt_injection"
    case OversizedPayload => "oversized_payload"
    case UnknownOperation => "unknown_operation"
  }

  datatype Source = Input | Output

  datatype RiskFlag = RiskFlag(code: FlagCode, severity: RiskLevel, source: Source, keyword: Option<string>)

  /** The severity with which a code is always raised. */
  function SeverityOf(code: FlagCode): RiskLevel {
    match code
    case WriteOperation => Medium
    case ExternalSideEffect => Medium
    case DestructiveSql => Critical
    case MultipleSqlStatements => Critical
    case PossibleSsrfTarget => Critical
    case _ => High
  }

  /** The codes in the order of their texts. */
  const ALPHABETICAL: seq<FlagCode> := [
    DestructiveSql, ExternalSideEffect, MultipleSqlStatements, OversizedPayload, PossibleCommandInjection,
    PossibleIndirectPromptInjection, PossiblePathTraversal, PossibleSsrfTarget, SensitiveInput, SensitiveOutput,
    UnknownOperation, WriteOperation, WriteSql]

  function Place(code: FlagCode): (n: nat)
    ensures n < |ALPHABETICAL| && ALPHABETICAL[n] == code
  {
    match code
    case DestructiveSql => 0
    case ExternalSideEffect => 1
    case MultipleSqlStatements => 2
    case OversizedPayload => 3
    case PossibleCommandInjection => 4
    case PossibleIndirectPromptInjection => 5
    case PossiblePathTraversal => 6
    case PossibleSsrfTarget => 7
    case SensitiveInput => 8
    case SensitiveOutput => 9
    case UnknownOperation => 10
    case WriteOperation => 11
    case WriteSql => 12
  }

  predicate CodeLeq(a: FlagCode, b: FlagCode) { Place(a) <= Place(b) }

  lemma CodesAreOrdered()
    ensures Sorting.TotalOrder(CodeLeq)
  {
    forall a, b | CodeLeq(a, b) && CodeLeq(b, a) ensures a == b {
      assert ALPHABETICAL[Place(a)] == a && ALPHABETICAL[Place(b)] == b;
    }
  }

  ghost predicate HasCode(flags: seq<RiskFlag>, code: FlagCode) { exists f :: f in flags && f.code == code }

  // ---------------------------------------------------- the highest severity

  /** The base level raised by every flag: the loop over flags in both classifiers. */
  function Raise(base: RiskLevel, flags: seq<RiskFlag>): (level: RiskLevel)
    ensures level.Rank() >= base.Rank()
    ensures forall i :: 0 <= i < |flags| ==> level.Rank() >= flags[i].severity.Rank()
    ensures level == base || exists i :: 0 <= i < |flags| && flags[i].severity == level
  {
    if flags == [] then base
    else RiskMax(Raise(base, flags[..|flags| - 1]), flags[|flags| - 1].severity)
  }

  /** The level is the least one that is at or above the base and every severity. */
  ghost predicate Highest(level: RiskLevel, base: RiskLevel, flags: seq<RiskFlag>) {
    && level.Rank() >= base.Rank()
    && (forall f :: f in flags ==> level.Rank() >= f.severity.Rank())
    && (level == base || exists f :: f in flags && f.severity == level)
  }

  /** With one severity per code, lists with the same codes raise a level alike. */
  lemma SameCodesSameLevel(base: RiskLevel, a: seq<RiskFlag>, b: seq<RiskFlag>)
    requires forall f :: f in a || f in b ==> f.severity == SeverityOf(f.code)
    requires forall f :: f in a ==> HasCode(b, f.code)
    requires forall f :: f in b ==> HasCode(a, f.code)
    ensures Raise(base, a) == Raise(base, b)
  {
    var x, y := Raise(base, a), Raise(base, b);
    RaiseBounded(base, a, b);
    RaiseBounded(base, b, a);
  }

  lemma RaiseBounded(base: RiskLevel, a: seq<RiskFlag>, b: seq<RiskFlag>)
    requires forall f :: f in a || f in b ==> f.severity == SeverityOf(f.code)
    requires forall f :: f in a ==> HasCode(b, f.code)
    ensures Raise(base, a).Rank() <= Raise(base, b).Rank()
  {
    var x := Raise(base, a);
    if x != base {
      var i :| 0 <= i < |a| && a[i].severity == x;
      assert a[i] in a;
      var g :| g in b && g.code == a[i].code;
      var j :| 0 <= j < |b| && b[j] == g;
    }
  }

  // --------------------------------------------------------- deduplication

  /** flag is the first one in the list with its code. */
  ghost predicate FirstOfCode(flag: RiskFlag, flags: seq<RiskFlag>) {
    exists i :: 0 <= i < |flags| && flags[i] == flag && forall j :: 0 <= j < i ==> flags[j].code != flag.code
  }

  /** Strictly increasing by code text. */
  ghost predicate SortedByCode(flags: seq<RiskFlag>) {
    forall i, j :: 0 <= i < j < |flags| ==>
      CodeLeq(flags[i].code, flags[j].code) && flags[i].code != flags[j].code
  }

  /** The dict filled by setdefault, with its keys in insertion order. */
  method FirstByCode(flags: seq<RiskFlag>) returns (byCode: map<FlagCode, RiskFlag>, keys: seq<FlagCode>)
    ensures Sorting.Distinct(keys) && forall c :: c in keys <==> c in byCode
    ensures forall f :: f in flags ==> f.code in byCode
    ensures forall c :: c in byCode ==> byCode[c].code == c && FirstOfCode(byCode[c], flags)
  {
    byCode, keys := map[], [];
    for n := 0 to |flags|
      invariant Sorting.Distinct(keys) && forall c :: c in keys <==> c in byCode
      invariant forall i :: 0 <= i < n ==> flags[i].code in byCode
      invariant forall c :: c in byCode ==> byCode[c].code == c && FirstOfCode(byCode[c], flags[..n])
    {
      var flag := flags[n];
      forall c | c in byCode ensures FirstOfCode(byCode[c], flags[..n + 1]) {
        FirstStaysFirst(byCode[c], flags[..n], flags[n]);
        assert flags[..n] + [flags[n]] == flags[..n + 1];
      }
      if flag.code !in byCode {
        assert flags[..n + 1][n] == flag;
        byCode := byCode[flag.code := flag];
        keys := keys + [flag.code];
      }
    }
    assert flags[..|flags|] == flags;
  }

  lemma FirstStaysFirst(flag: RiskFlag, flags: seq<RiskFlag>, more: RiskFlag)
    requires FirstOfCode(flag, flags)
    ensures FirstOfCode(flag, flags + [more])
  {
    var i :| 0 <= i < |flags| && flags[i] == flag && forall j :: 0 <= j < i ==> flags[j].code != flag.code;
    assert (flags + [more])[i] == flag;
  }

  lemma SortedCodes(keys: seq<FlagCode>)
    requires Sorting.Distinct(keys)
    ensures var sorted := Sorting.Sort(CodeLeq, keys);
      && Sorting.Distinct(sorted) && (forall c :: c in keys <==> c in sorted)
      && forall i, j :: 0 <= i < j < |sorted| ==> CodeLeq(sorted[i], sorted[j]) && sorted[i] != sorted[j]
  {
    var sorted := Sorting.Sort(CodeLeq, keys);
    CodesAreOrdered();
    Sorting.SortSorts(CodeLeq, keys);
    Sorting.SortKeepsElements(CodeLeq, keys);
    Sorting.RearrangementDistinct(keys, sorted);
    forall c ensures c in keys <==> c in sorted {
      assert c in keys <==> c in multiset(keys);
      assert c in sorted <==> c in multiset(sorted);
    }
  }

  /** _deduplicate: the first flag of each code, sorted by code. */
  method Deduplicate(flags: seq<RiskFlag>) returns (r: seq<RiskFlag>)
    ensures SortedByCode(r)
    ensures forall f :: f in r ==> FirstOfCode(f, flags)
    ensures forall f :: f in flags ==> HasCode(r, f.code)
  {
    var byCode, keys := FirstByCode(flags);
    var sorted := Sorting.Sort(CodeLeq, keys);
    SortedCodes(keys);
    r := [];
    for n := 0 to |sorted|
      invariant |r| == n
      invariant forall i :: 0 <= i < n ==> sorted[i] in byCode && r[i] == byCode[sorted[i]]
    {
      assert sorted[n] in sorted;
      r := r + [byCode[sorted[n]]];
    }
    forall f | f in flags ensures HasCode(r, f.code) {
      var k :| 0 <= k < |sorted| && sorted[k] == f.code;
      assert r[k] in r && r[k].code == f.code;
    }
  }

  // ------------------------------------------------------ string collection

  /** The text stands somewhere in the value, under whatever keys and indices. */
  ghost predicate Occurs(v: Json, text: string)
    decreases v
  {
    match v
    case Str(t) => t == text
    case Arr(items) => exists i :: 0 <= i < |items| && Occurs(items[i], text)
    case Obj(fields) => exists i :: 0 <= i < |fields| && Occurs(fields[i].value, text)
    case _ => false
  }

  function Values(fields: seq<Field>): (r: seq<Json>)
    ensures |r| == |fields| && forall i :: 0 <= i < |r| ==> r[i] == fields[i].value
  {
    seq(|fields|, i requires 0 <= i < |fields| => fields[i].value)
  }

  /** Every string of the value in document order. */
  function Strings(v: Json): seq<string>
    decreases v, 1
  {
    match v
    case Str(text) => [text]
    case Arr(items) => ItemsStrings(items)
    case Obj(fields) => FieldsStrings(fields)
    case _ => []
  }

  function ItemsStrings(items: seq<Json>): seq<string>
    decreases items, 0
  {
    if items == [] then [] else Strings(items[0]) + ItemsStrings(items[1..])
  }

  function FieldsStrings(fields: seq<Field>): seq<string>
    decreases fields, 0
  {
    if fields == [] then [] else Strings(fields[0].value) + FieldsStrings(fields[1..])
  }

  /** The strings of a value are the texts that stand in it. */
  lemma {:induction false} StringsExactly(v: Json, text: string)
    ensures text in Strings(v) <==> Occurs(v, text)
    decreases v, 1
  {
    match v
    case Arr(items) => ItemsStringsExactly(items, text);
    case Obj(fields) => FieldsStringsExactly(fields, text);
    case _ =>
  }

  lemma {:induction false} ItemsStringsExactly(items: seq<Json>, text: string)
    ensures text in ItemsStrings(items) <==> exists i :: 0 <= i < |items| && Occurs(items[i], text)
    decreases items, 0
  {
    if items != [] {
      StringsExactly(items[0], text);
      ItemsStringsExactly(items[1..], text);
      assert forall i :: 0 < i < |items| ==> items[i] == items[1..][i - 1];
      assert forall i :: 0 <= i < |items[1..]| ==> items[1..][i] == items[i + 1];
    }
  }

  lemma {:induction false} FieldsStringsExactly(fields: seq<Field>, text: string)
    ensures text in FieldsStrings(fields) <==> exists i :: 0 <= i < |fields| && Occurs(fields[i].value, text)
    decreases fields, 0
  {
    if fields != [] {
      StringsExactly(fields[0].value, text);
      FieldsStringsExactly(fields[1..], text);
      assert forall i :: 0 < i < |fields| ==> fields[i] == fields[1..][i - 1];
      assert forall i :: 0 <= i < |fields[1..]| ==> fields[1..][i] == fields[i + 1];
    }
  }

  lemma {:induction false} FieldsAreTheirValues(fields: seq<Field>)
    ensures FieldsStrings(fields) == ItemsStrings(Values(fields))
    ensures FieldsSize(fields) == ItemsSize(Values(fields))
  {
    if fields != [] {
      FieldsAreTheirValues(fields[1..]);
      assert Values(fields)[1..] == Values(fields[1..]);
    }
  }

  /** The number of values in a value, itself included. */
  function Size(v: Json): (n: nat)
    ensures n >= 1
    decreases v, 1
  {
    match v
    case Arr(items) => 1 + ItemsSize(items)
    case Obj(fields) => 1 + FieldsSize(fields)
    case _ => 1
  }

  function ItemsSize(items: seq<Json>): nat
    decreases items, 0
  {
    if items == [] then 0 else Size(items[0]) + ItemsSize(items[1..])
  }

  function FieldsSize(fields: seq<Field>): nat
    decreases fields, 0
  {
    if fields == [] then 0 else Size(fields[0].value) + FieldsSize(fields[1..])
  }

  lemma {:induction false} ItemsAppend(a: seq<Json>, b: seq<Json>)
    ensures ItemsStrings(a + b) == ItemsStrings(a) + ItemsStrings(b)
  {
    if a == [] {
      assert a + b == b;
    } else {
      ItemsAppend(a[1..], b);
      var ab := a + b;
      assert ab[1..] == a[1..] + b && ab[0] == a[0];
    }
  }

  lemma {:induction false} SizesAdd(a: seq<Json>, b: seq<Json>)
    ensures ItemsSize(a + b) == ItemsSize(a) + ItemsSize(b)
  {
    if a == [] {
      assert a + b == b;
    } else {
      SizesAdd(a[1..], b);
      var ab := a + b;
      assert ab[1..] == a[1..] + b && ab[0] == a[0];
    }
  }

  function Reverse<T>(xs: seq<T>): (r: seq<T>)
    ensures |r| == |xs|
  {
    if xs == [] then [] else Reverse(xs[1..]) + [xs[0]]
  }

  lemma {:induction false} ReverseAppend<T>(a: seq<T>, b: seq<T>)
    ensures Reverse(a + b) == Reverse(b) + Reverse(a)
  {
    if a == [] {
      assert a + b == b;
    } else {
      ReverseAppend(a[1..], b);
      assert (a + b)[1..] == a[1..] + b;
    }
  }

  lemma {:induction false} ReverseKeepsElements<T>(xs: seq<T>)
    ensures multiset(Reverse(xs)) == multiset(xs)
  {
    if xs != [] {
      ReverseKeepsElements(xs[1..]);
      assert xs == [xs[0]] + xs[1..];
    }
  }

  function Children(v: Json): seq<Json> {
    match v
    case Obj(fields) => Values(fields)
    case Arr(items) => items
    case _ => []
  }

  lemma ChildrenCarryStrings(v: Json)
    requires !v.Str?
    ensures Strings(v) == ItemsStrings(Children(v)) && Size(v) == 1 + ItemsSize(Children(v))
  {
    if v.Obj? { FieldsAreTheirValues(v.fields); }
  }

  /** What is left to read, and how much of it, when the top of the stack is taken. */
  lemma Pop(below: seq<Json>, current: Json)
    ensures ItemsStrings(below + [current]) == ItemsStrings(below) + Strings(current)
    ensures ItemsSize(below + [current]) == ItemsSize(below) + Size(current)
    ensures !current.Str? ==> ItemsStrings(below + Children(current)) == ItemsStrings(below + [current])
    ensures !current.Str? ==> ItemsSize(below + Children(current)) < ItemsSize(below + [current])
  {
    ItemsAppend(below, [current]);
    SizesAdd(below, [current]);
    assert [current][1..] == [];
    assert ItemsStrings([current]) == Strings(current) + ItemsStrings([]);
    if !current.Str? {
      ItemsAppend(below, Children(current));
      SizesAdd(below, Children(current));
      ChildrenCarryStrings(current);
    }
  }

  /** Everything read, then everything still on the stack. */
  function Read(values: seq<string>, stack: seq<Json>): seq<string> { values + Reverse(ItemsStrings(stack)) }

  lemma PopString(values: seq<string>, below: seq<Json>, text: string)
    ensures Read(values + [text], below) == Read(values, below + [Str(text)])
    ensures ItemsSize(below) < ItemsSize(below + [Str(text)])
  {
    Pop(below, Str(text));
    ReverseAppend(ItemsStrings(below), [text]);
    assert [text][1..] == [] && Reverse([text]) == [text];
  }

  lemma PopContainer(values: seq<string>, below: seq<Json>, current: Json)
    requires !current.Str?
    ensures Read(values, below + Children(current)) == Read(values, below + [current])
    ensures ItemsSize(below + Children(current)) < ItemsSize(below + [current])
  {
    Pop(below, current);
  }

  lemma OnlyOne(value: Json)
    ensures Read([], [value]) == Reverse(Strings(value)) && Read([], []) == []
  {
    assert [value][1..] == [];
    assert ItemsStrings([value]) == Strings(value) + ItemsStrings([]) == Strings(value);
  }

  /** The stack loop of _flatten_strings before the join: it ends on every value
      and yields each string once, in reverse document order. */
  method FlattenStrings(value: Json) returns (values: seq<string>)
    ensures values == Reverse(Strings(value))
    ensures multiset(values) == multiset(Strings(value))
  {
    values := [];
    var stack := [value];
    OnlyOne(value);
    ghost var all := Read(values, stack);
    while stack != []
      invariant Read(values, stack) == all
      decreases ItemsSize(stack)
    {
      var current := stack[|stack| - 1];
      var below := stack[..|stack| - 1];
      assert stack == below + [current];
      if current.Str? {
        PopString(values, below, current.text);
        values := values + [current.text];
        stack := below;
      } else {
        PopContainer(values, below, current);
        stack := below + Children(current);
      }
    }
    assert Read(values, []) == values;
    ReverseKeepsElements(Strings(value));
  }

  /** "\n".join */
  function JoinLines(lines: seq<string>): string {
    if lines == [] then "" else if |lines| == 1 then lines[0] else lines[0] + "\n" + JoinLines(lines[1..])
  }

  function FlatText(value: Json): string { JoinLines(Reverse(Strings(value))) }

  // -------------------------------------------------------- classification

  /** The regular expressions, and the split of a query into statements after
      leading comments are removed. */
  datatype Detectors = Detectors(
    command: string -> bool,
    traversal: string -> bool,
    internalTarget: string -> bool,
    injection: string -> bool,
    statements: string -> seq<string>,
    operation: string -> Option<string>)

  datatype RiskAssessment = RiskAssessment(level: RiskLevel, flags: seq<RiskFlag>)

  function InputFlag(code: FlagCode): RiskFlag { RiskFlag(code, SeverityOf(code), Input, None) }

  function KeywordFlag(code: FlagCode, keyword: string): RiskFlag {
    RiskFlag(code, SeverityOf(code), Input, Some(keyword))
  }

  /** arguments.get("query") */
  function Member(arguments: Json, key: string): Option<Json> {
    if arguments.Obj? then MemberOf(arguments.fields, key) else None
  }

  function MemberOf(fields: seq<Field>, key: string): Option<Json> {
    if fields == [] then None
    else if fields[0].key == key then Some(fields[0].value)
    else MemberOf(fields[1..], key)
  }

  /** The member of a dict under a key, if the dict has it. */
  lemma {:induction false} MemberOfExactly(fields: seq<Field>, key: string)
    requires DistinctKeys(fields)
    ensures forall i :: 0 <= i < |fields| && fields[i].key == key ==> MemberOf(fields, key) == Some(fields[i].value)
    ensures MemberOf(fields, key).None? <==> forall i :: 0 <= i < |fields| ==> fields[i].key != key
  {
    if fields != [] {
      MemberOfExactly(fields[1..], key);
      forall i | 0 <= i < |fields| && fields[i].key == key ensures MemberOf(fields, key) == Some(fields[i].value) {
        if i > 0 {
          assert fields[1..][i - 1] == fields[i];
          assert fields[0].key != fields[i].key;
        }
      }
      if fields[0].key != key && MemberOf(fields, key).None? {
        forall i | 0 <= i < |fields| ensures fields[i].key != key {
          if i > 0 { assert fields[1..][i - 1] == fields[i]; }
        }
      }
      if fields[0].key != key && MemberOf(fields, key).Some? {
        var j :| 0 <= j < |fields[1..]| && fields[1..][j].key == key;
        assert fields[j + 1].key == key;
      }
    }
  }

  const WRITES := {"INSERT", "UPDATE", "DELETE", "CREATE", "GRANT", "REVOKE"}
  const DESTROYS := {"DELETE", "DROP", "TRUNCATE", "ALTER"}

  function SqlOperation(d: Detectors, query: string): string {
    var statements := d.statements(query);
    match d.operation(if statements == [] then "" else statements[0])
    case Some(word) => word
    case None => "UNKNOWN"
  }

  /** When a code is raised for SQL text, code by code. */
  predicate SqlRaises(d: Detectors, value: Option<Json>, code: FlagCode) {
    if value.None? || !value.value.Str? then code == UnknownOperation
    else
      var query := value.value.text;
      var operation := SqlOperation(d, query);
      match code
      case MultipleSqlStatements => |d.statements(query)| > 1
      case WriteSql => operation in WRITES
      case DestructiveSql => operation in DESTROYS
      case UnknownOperation => operation != "SELECT" && operation !in WRITES && operation !in DESTROYS
      case _ => false
  }

  method ClassifySql(d: Detectors, value: Option<Json>) returns (flags: seq<RiskFlag>)
    ensures forall f :: f in flags ==> f.severity == SeverityOf(f.code) && f.source == Input
    ensures forall c :: (HasCode(flags, c)) <==> SqlRaises(d, value, c)
  {
    if value.None? || !value.value.Str? {
      flags := [InputFlag(UnknownOperation)];
      assert flags[0] in flags;
      return;
    }
    var query := value.value.text;
    flags := [];
    if |d.statements(query)| > 1 { flags := flags + [InputFlag(MultipleSqlStatements)]; }
    ghost var first := flags;
    var operation := SqlOperation(d, query);
    if operation == "SELECT" {
    } else if operation in {"INSERT", "UPDATE", "DELETE"} {
      flags := flags + [KeywordFlag(WriteSql, operation)];
      if operation == "DELETE" { flags := flags + [KeywordFlag(DestructiveSql, operation)]; }
    } else if operation in {"DROP", "TRUNCATE", "ALTER"} {
      flags := flags + [KeywordFlag(DestructiveSql, operation)];
    } else if operation in {"CREATE", "GRANT", "REVOKE"} {
      flags := flags + [KeywordFlag(WriteSql, operation)];
    } else {
      var keyword := if |operation| > 20 then operation[..20] else operation;
      flags := flags + [KeywordFlag(UnknownOperation, keyword)];
    }
    forall c | SqlRaises(d, value, c) ensures HasCode(flags, c) {
      if c == MultipleSqlStatements { assert flags[0].code == c && flags[0] in flags; }
      else { assert flags[|flags| - 1] in flags && flags[|first|] in flags; }
    }
  }

  /** When a code is raised for the text of any other tool's arguments. */
  predicate TextRaises(d: Detectors, text: string, code: FlagCode) {
    match code
    case PossibleCommandInjection => d.command(text)
    case PossiblePathTraversal => d.traversal(text)
    case PossibleSsrfTarget => d.internalTarget(text)
    case _ => false
  }

  /** if condition: flags.append(_flag(code, ...)) */
  function AppendIf(flags: seq<RiskFlag>, condition: bool, flag: RiskFlag): (r: seq<RiskFlag>)
    ensures forall c :: HasCode(r, c) <==> HasCode(flags, c) || (condition && c == flag.code)
    ensures forall f :: f in r ==> f in flags || f == flag
  {
    CodesOfBoth(flags, [flag]);
    assert [flag][0] in [flag];
    if condition then flags + [flag] else flags
  }

  method GenericInputFlags(d: Detectors, value: Json) returns (flags: seq<RiskFlag>)
    ensures forall f :: f in flags ==> f.severity == SeverityOf(f.code) && f.source == Input
    ensures forall c :: HasCode(flags, c) <==> TextRaises(d, FlatText(value), c)
  {
    var strings := FlattenStrings(value);
    flags := TextFlags(d, JoinLines(strings));
  }

  method TextFlags(d: Detectors, text: string) returns (flags: seq<RiskFlag>)
    ensures forall f :: f in flags ==> f.severity == SeverityOf(f.code) && f.source == Input
    ensures forall c :: HasCode(flags, c) <==> TextRaises(d, text, c)
  {
    var a := AppendIf([], d.command(text), InputFlag(PossibleCommandInjection));
    var b := AppendIf(a, d.traversal(text), InputFlag(PossiblePathTraversal));
    flags := AppendIf(b, d.internalTarget(text), InputFlag(PossibleSsrfTarget));
  }

  /** When an input code is raised, over all branches. */
  predicate InputRaises(d: Detectors, tool: string, arguments: Json, found: bool, code: FlagCode) {
    if code == SensitiveInput then found
    else if tool == "email.send" then code == WriteOperation || code == ExternalSideEffect
    else if tool == "database.query" then SqlRaises(d, Member(arguments, "query"), code)
    else TextRaises(d, FlatText(arguments), code)
  }

  /** What every assessment promises: its level is the maximum of the base and the
      severities of the very flags it returns, one per raised code, sorted by code. */
  ghost predicate Assesses(r: RiskAssessment, base: RiskLevel, raised: FlagCode -> bool, source: Source) {
    && Highest(r.level, base, r.flags)
    && SortedByCode(r.flags)
    && (forall f :: f in r.flags ==> f.severity == SeverityOf(f.code) && f.source == source)
    && (forall c :: HasCode(r.flags, c) <==> raised(c))
  }

  /** The loop that raises the level, then the deduplication. */
  method Conclude(base: RiskLevel, flags: seq<RiskFlag>, ghost raised: FlagCode -> bool, source: Source)
    returns (r: RiskAssessment)
    requires forall f :: f in flags ==> f.severity == SeverityOf(f.code) && f.source == source
    requires forall c :: (HasCode(flags, c)) <==> raised(c)
    ensures Assesses(r, base, raised, source)
    ensures r.level == Raise(base, flags)
  {
    var level := base;
    for n := 0 to |flags|
      invariant level == Raise(base, flags[..n])
    {
      assert flags[..n + 1][..n] == flags[..n];
      level := RiskMax(level, flags[n].severity);
    }
    assert flags[..|flags|] == flags;
    var unique := Deduplicate(flags);
    r := RiskAssessment(level, unique);
    SameCodes(flags, unique);
    SameCodesSameLevel(base, flags, unique);
    RaiseIsHighest(base, unique);
  }

  lemma SameCodes(flags: seq<RiskFlag>, unique: seq<RiskFlag>)
    requires forall f :: f in unique ==> FirstOfCode(f, flags)
    requires forall f :: f in flags ==> HasCode(unique, f.code)
    ensures forall f :: f in unique ==> f in flags
    ensures forall c :: HasCode(unique, c) <==> HasCode(flags, c)
    ensures forall f :: f in unique ==> HasCode(flags, f.code)
  {
  }

  lemma CodesOfBoth(a: seq<RiskFlag>, b: seq<RiskFlag>)
    ensures forall c :: HasCode(a + b, c) <==> (HasCode(a, c) || HasCode(b, c))
    ensures forall f :: f in a + b <==> f in a || f in b
  {
    forall c ensures HasCode(a + b, c) <==> (HasCode(a, c) || HasCode(b, c)) {
      assert forall f :: f in a + b <==> f in a || f in b;
    }
  }

  lemma RaiseIsHighest(base: RiskLevel, flags: seq<RiskFlag>)
    ensures Highest(Raise(base, flags), base, flags)
  {
    var level := Raise(base, flags);
    if level != base {
      var i :| 0 <= i < |flags| && flags[i].severity == level;
      assert flags[i] in flags;
    }
  }

  method ClassifyInput(d: Detectors, tool: string, base: RiskLevel, arguments: Json, found: bool)
    returns (r: RiskAssessment)
    ensures Assesses(r, base, c => InputRaises(d, tool, arguments, found, c), Input)
  {
    var flags: seq<RiskFlag> := [];
    if found { flags := flags + [InputFlag(SensitiveInput)]; }
    ghost var first := flags;
    var more: seq<RiskFlag>;
    if tool == "email.send" {
      more := [InputFlag(WriteOperation), InputFlag(ExternalSideEffect)];
      assert more[0] in more && more[1] in more;
    } else if tool == "database.query" {
      more := ClassifySql(d, Member(arguments, "query"));
    } else {
      more := GenericInputFlags(d, arguments);
    }
    CodesOfBoth(first, more);
    flags := flags + more;
    assert found ==> first[0] in first;
    r := Conclude(base, flags, c => InputRaises(d, tool, arguments, found, c), Input);
  }

  predicate OutputRaises(d: Detectors, value: Json, found: bool, code: FlagCode) {
    (code == SensitiveOutput && found) || (code == PossibleIndirectPromptInjection && d.injection(FlatText(value)))
  }

  method ClassifyOutput(d: Detectors, value: Json, found: bool, base: RiskLevel) returns (r: RiskAssessment)
    ensures Assesses(r, base, c => OutputRaises(d, value, found, c), Output)
  {
    var flags: seq<RiskFlag> := [];
    if found { flags := flags + [RiskFlag(SensitiveOutput, High, Output, None)]; }
    ghost var one := |flags|;
    var strings := FlattenStrings(value);
    if d.injection(JoinLines(strings)) {
      flags := flags + [RiskFlag(PossibleIndirectPromptInjection, High, Output, None)];
    }
    forall c | OutputRaises(d, value, found, c) ensures HasCode(flags, c) {
      if c == SensitiveOutput { assert flags[0] in flags; } else { assert flags[one] in flags; }
    }
    r := Conclude(base, flags, c => OutputRaises(d, value, found, c), Output);
  }

  // -------------------------------------------- what the levels come to

  /** Every severity a flag can carry, code by code. */
  lemma FlagsSay(r: RiskAssessment, base: RiskLevel, raised: FlagCode -> bool, source: Source, f: RiskFlag)
    requires Assesses(r, base, raised, source) && f in r.flags
    ensures f.severity == Critical <==>
      f.code == DestructiveSql || f.code == MultipleSqlStatements || f.code == PossibleSsrfTarget
    ensures f.severity == Medium <==> f.code == WriteOperation || f.code == ExternalSideEffect
    ensures f.severity != Low
  {
  }

  /** With these codes raised at these severities, the level is the higher of the base
      and the worst of them. */
  lemma LevelIs(r: RiskAssessment, base: RiskLevel, raised: FlagCode -> bool, source: Source, worst: RiskLevel)
    requires Assesses(r, base, raised, source)
    requires forall c :: raised(c) ==> SeverityOf(c).Rank() <= worst.Rank()
    requires worst == Low || exists c :: raised(c) && SeverityOf(c) == worst
    ensures r.level.Rank() == Max(base.Rank(), worst.Rank())
  {
    if worst != Low {
      var c :| raised(c) && SeverityOf(c) == worst;
      assert HasCode(r.flags, c);
    }
    if r.level != base {
      var f :| f in r.flags && f.severity == r.level;
      assert HasCode(r.flags, f.code);
    }
  }

  /** email.send is at least medium, and high with a secret in its arguments. */
  lemma EmailLevel(r: RiskAssessment, d: Detectors, base: RiskLevel, arguments: Json, found: bool)
    requires Assesses(r, base, c => InputRaises(d, "email.send", arguments, found, c), Input)
    ensures r.level.Rank() == Max(base.Rank(), if found then High.Rank() else Medium.Rank())
  {
    var raised := c => InputRaises(d, "email.send", arguments, found, c);
    assert raised(WriteOperation) && (found ==> raised(SensitiveInput));
    LevelIs(r, base, raised, Input, if found then High else Medium);
  }

  /** database.query with text: critical when it destroys or holds several statements,
      high when it writes, is unknown or holds a secret, and the base otherwise. */
  lemma QueryLevel(r: RiskAssessment, d: Detectors, base: RiskLevel, arguments: Json, query: string, found: bool)
    requires Assesses(r, base, c => InputRaises(d, "database.query", arguments, found, c), Input)
    requires Member(arguments, "query") == Some(Str(query))
    ensures var word := SqlOperation(d, query);
      r.level.Rank() == Max(base.Rank(),
        if |d.statements(query)| > 1 || word == "DELETE" || word == "DROP" || word == "TRUNCATE" || word == "ALTER"
        then Critical.Rank()
        else if found || word != "SELECT" then High.Rank()
        else Low.Rank())
  {
    var raised := c => InputRaises(d, "database.query", arguments, found, c);
    var word := SqlOperation(d, query);
    if |d.statements(query)| > 1 {
      assert raised(MultipleSqlStatements);
      LevelIs(r, base, raised, Input, Critical);
    } else if word in DESTROYS {
      assert raised(DestructiveSql);
      LevelIs(r, base, raised, Input, Critical);
    } else if word != "SELECT" {
      assert raised(if word in WRITES then WriteSql else UnknownOperation);
      LevelIs(r, base, raised, Input, High);
    } else if found {
      assert raised(SensitiveInput);
      LevelIs(r, base, raised, Input, High);
    } else {
      LevelIs(r, base, raised, Input, Low);
    }
  }

  /** Which codes a query's text raises, word by word. */
  lemma QueryCodes(d: Detectors, query: string)
    ensures var value, word := Some(Str(query)), SqlOperation(d, query);
      && (SqlRaises(d, value, WriteSql) <==>
            word in {"INSERT", "UPDATE", "DELETE", "CREATE", "GRANT", "REVOKE"})
      && (SqlRaises(d, value, DestructiveSql) <==> word in {"DELETE", "DROP", "TRUNCATE", "ALTER"})
      && (SqlRaises(d, value, UnknownOperation) <==>
            word !in {"SELECT", "INSERT", "UPDATE", "DELETE", "CREATE", "GRANT", "REVOKE", "DROP", "TRUNCATE", "ALTER"})
      && (SqlRaises(d, value, MultipleSqlStatements) <==> |d.statements(query)| > 1)
  {
  }

  /** database.query without a text is at least high. */
  lemma NoQueryLevel(r: RiskAssessment, d: Detectors, base: RiskLevel, arguments: Json, found: bool)
    requires Assesses(r, base, c => InputRaises(d, "database.query", arguments, found, c), Input)
    requires Member(arguments, "query").None? || !Member(arguments, "query").value.Str?
    ensures r.level.Rank() == Max(base.Rank(), High.Rank())
  {
    var raised := c => InputRaises(d, "database.query", arguments, found, c);
    assert raised(UnknownOperation);
    LevelIs(r, base, raised, Input, High);
  }

  /** Any other tool: critical for an internal target in the text of its arguments, high
      for a command, a traversal or a secret, and the base otherwise. */
  lemma TextLevel(r: RiskAssessment, d: Detectors, tool: string, base: RiskLevel, arguments: Json, found: bool)
    requires Assesses(r, base, c => InputRaises(d, tool, arguments, found, c), Input)
    requires tool != "email.send" && tool != "database.query"
    ensures var text := FlatText(arguments);
      r.level.Rank() == Max(base.Rank(),
        if d.internalTarget(text) then Critical.Rank()
        else if found || d.command(text) || d.traversal(text) then High.Rank()
        else Low.Rank())
  {
    var raised := c => InputRaises(d, tool, arguments, found, c);
    var text := FlatText(arguments);
    if d.internalTarget(text) {
      assert raised(PossibleSsrfTarget);
      LevelIs(r, base, raised, Input, Critical);
    } else if found || d.command(text) || d.traversal(text) {
      assert raised(SensitiveInput) || raised(PossibleCommandInjection) || raised(PossiblePathTraversal);
      LevelIs(r, base, raised, Input, High);
    } else {
      LevelIs(r, base, raised, Input, Low);
    }
  }

  /** A result with a secret or an injection in it is at least high, any other keeps
      the level of the input. */
  lemma OutputLevel(r: RiskAssessment, d: Detectors, base: RiskLevel, value: Json, found: bool)
    requires Assesses(r, base, c => OutputRaises(d, value, found, c), Output)
    ensures r.level.Rank() ==
      Max(base.Rank(), if found || d.injection(FlatText(value)) then High.Rank() else Low.Rank())
  {
    var raised := c => OutputRaises(d, value, found, c);
    if found || d.injection(FlatText(value)) {
      assert raised(if found then SensitiveOutput else PossibleIndirectPromptInjection);
      LevelIs(r, base, raised, Output, High);
    } else {
      LevelIs(r, base, raised, Output, Low);
    }
  }

  // ------------------------------------------------ the order of the codes

  lemma {:induction false} LeqShared(prefix: string, a: string, b: string)
    requires Leq(a, b)
    ensures Leq(prefix + a, prefix + b)
  {
    if prefix == "" {
      assert prefix + a == a && prefix + b == b;
    } else {
      LeqShared(prefix[1..], a, b);
      assert (prefix + a)[1..] == prefix[1..] + a && (prefix + b)[1..] == prefix[1..] + b;
    }
  }

  /** Texts are ordered by their first difference. */
  lemma FirstDifference(a: string, b: string, n: nat)
    requires n < |a| && n < |b| && a[..n] == b[..n] && a[n] < b[n]
    ensures Leq(a, b) && a != b
  {
    assert a == a[..n] + a[n..] && b == b[..n] + b[n..];
    LeqShared(a[..n], a[n..], b[n..]);
  }

  /** Where the texts of neighbouring codes differ first. */
  function Shared(n: nat): nat {
    if n == 4 || n == 5 || n == 6 then 9 else if n == 8 then 10 else if n == 11 then 6 else 0
  }

  lemma NextIsLater(n: nat)
    requires n + 1 < |ALPHABETICAL|
    ensures var a, b := CodeText(ALPHABETICAL[n]), CodeText(ALPHABETICAL[n + 1]); Leq(a, b) && a != b
  {
    FirstDifference(CodeText(ALPHABETICAL[n]), CodeText(ALPHABETICAL[n + 1]), Shared(n));
  }

  lemma {:induction false} LaterIsLater(m: nat, n: nat)
    requires m < n < |ALPHABETICAL|
    ensures var a, b := CodeText(ALPHABETICAL[m]), CodeText(ALPHABETICAL[n]); Leq(a, b) && a != b
    decreases n
  {
    NextIsLater(n - 1);
    if m < n - 1 {
      var a, b, c := CodeText(ALPHABETICAL[m]), CodeText(ALPHABETICAL[n - 1]), CodeText(ALPHABETICAL[n]);
      LaterIsLater(m, n - 1);
      LeqTransitive(a, b, c);
      if a == c { LeqAntisymmetric(a, b); }
    }
  }

  /** Flags are sorted by the texts of their codes. */
  lemma CodesFollowTexts(a: FlagCode, b: FlagCode)
    ensures CodeLeq(a, b) <==> Leq(CodeText(a), CodeText(b))
  {
    if Place(a) < Place(b) {
      LaterIsLater(Place(a), Place(b));
      if Leq(CodeText(b), CodeText(a)) { LeqAntisymmetric(CodeText(a), CodeText(b)); }
    } else if Place(b) < Place(a) {
      LaterIsLater(Place(b), Place(a));
      if Leq(CodeText(a), CodeText(b)) { LeqAntisymmetric(CodeText(a), CodeText(b)); }
    } else {
      assert a == ALPHABETICAL[Place(a)] == b;
      LeqTotal(CodeText(a), CodeText(b));
    }
  }
}
